/**
 * Classification of a picked image by the string form of its content Uri
 * (Capturandro.java, `PICASA_CONTENT_PROVIDERS`, `isUserAttemptingToAddVideo`,
 * `isPicasaAndroid2Image`, `isPicasaAndroid3Image`).
 */
module Uris {
  import opened Wrappers

  /** A non-null `android.net.Uri`, seen through its `toString()`. */
  type Uri = string

  /** The content providers of the gallery3d applications whose images live in the cloud. */
  const PicasaContentProviders: seq<string> := [
    "content://com.android.gallery3d.provider",
    "content://com.google.android.gallery3d",
    "content://com.android.sec.gallery3d",
    "content://com.sec.android.gallery3d"
  ]

  /** Uris below this prefix are videos from the media store. */
  const VideoPrefix: string := "content://media/external/video/"

  /** Java's `String.startsWith`. */
  predicate StartsWith(s: string, prefix: string)
  {
    prefix <= s
  }

  /** The Uri belongs to one of the cloud gallery providers. */
  predicate IsPicasaProviderUri(u: Uri)
  {
    exists i :: 0 <= i < |PicasaContentProviders| && StartsWith(u, PicasaContentProviders[i])
  }

  /** The video guard of the gallery result: a non-null Uri under the video prefix. */
  predicate IsUserAttemptingToAddVideo(u: Option<Uri>)
    ensures IsUserAttemptingToAddVideo(u) <==>
              u.Some? && |VideoPrefix| <= |u.value| && u.value[..|VideoPrefix|] == VideoPrefix
  {
    u.Some? && StartsWith(u.value, VideoPrefix)
  }

  /**
   * The "second chance" test used when the content resolver returned no cursor:
   * any non-null Uri whose string form is not empty.
   */
  predicate IsPicasaAndroid2Image(u: Option<Uri>)
    ensures IsPicasaAndroid2Image(u) <==> u.Some? && u.value != []
  {
    u.Some? && |u.value| > 0
  }

  /** The provider test as the source runs it: scan the table and stop at the first match. */
  method IsPicasaAndroid3Image(u: Uri) returns (r: bool)
    ensures r <==> IsPicasaProviderUri(u)
    ensures r <==> exists i :: 0 <= i < |PicasaContentProviders| &&
                                |PicasaContentProviders[i]| <= |u| &&
                                u[..|PicasaContentProviders[i]|] == PicasaContentProviders[i]
  {
    var i := 0;
    while i < |PicasaContentProviders|
      invariant 0 <= i <= |PicasaContentProviders|
      invariant forall j :: 0 <= j < i ==> !StartsWith(u, PicasaContentProviders[j])
    {
      if StartsWith(u, PicasaContentProviders[i]) {
        return true;
      }
      i := i + 1;
    }
    return false;
  }

  /** A video Uri never names a cloud gallery provider: the two tests never both hold. */
  lemma VideoUriIsNotProviderUri(u: Uri)
    requires IsUserAttemptingToAddVideo(Some(u))
    ensures !IsPicasaProviderUri(u)
  {
    assert u[10] == VideoPrefix[10] == 'm';
    forall i | 0 <= i < |PicasaContentProviders|
      ensures !StartsWith(u, PicasaContentProviders[i])
    {
      assert PicasaContentProviders[i][10] == 'c';
    }
  }

  /** Every provider Uri also passes the non-empty test used when there is no cursor. */
  lemma ProviderUriIsPicasaAndroid2Image(u: Uri)
    requires IsPicasaProviderUri(u)
    ensures IsPicasaAndroid2Image(Some(u))
  {
  }

  /** Two prefixes of the same string are prefixes of one another. */
  lemma PrefixesAreNested(u: string, p: string, q: string)
    requires StartsWith(u, p) && StartsWith(u, q)
    ensures StartsWith(q, p) || StartsWith(p, q)
  {
  }

  /** No entry of the provider table is a prefix of another entry. */
  lemma ProviderTableIsPrefixFree(i: nat, j: nat)
    requires i < |PicasaContentProviders| && j < |PicasaContentProviders| && i != j
    ensures !StartsWith(PicasaContentProviders[j], PicasaContentProviders[i])
  {
    var p, q := PicasaContentProviders[i], PicasaContentProviders[j];
    var k := if (i == 0 && j == 2) || (i == 2 && j == 0) then 22
             else if (i == 1 && j == 3) || (i == 3 && j == 1) then 18
             else 14;
    assert k < |p| && k < |q| && p[k] != q[k];
  }

  /**
   * At most one provider prefix matches a Uri, so the order in which the table
   * is scanned does not change the answer.
   */
  lemma ProviderPrefixesAreDisjoint(u: Uri, i: nat, j: nat)
    requires i < |PicasaContentProviders| && j < |PicasaContentProviders|
    requires StartsWith(u, PicasaContentProviders[i]) && StartsWith(u, PicasaContentProviders[j])
    ensures i == j
  {
    PrefixesAreNested(u, PicasaContentProviders[i], PicasaContentProviders[j]);
    if i != j {
      ProviderTableIsPrefixFree(i, j);
      ProviderTableIsPrefixFree(j, i);
    }
  }
}
