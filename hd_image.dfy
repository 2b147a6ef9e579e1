/** The HD image wrapper's URL rule: Unsplash images without sizing parameters get them appended. */
module HDImage {
  import opened Wrappers
  import opened Text

  /**
   * An image source object: its `uri` (which may be missing) and the other
   * properties it carries, which the spread copies unchanged.
   */
  datatype ImageSource = ImageSource(uri: Option<string>, otherProps: map<string, string>)

  const UnsplashHost := "unsplash.com"
  const IxlibMarker := "?ixlib=rb-"
  const HdParams := "?auto=format&fit=crop&w=1080&q=80"

  /** The uri names an Unsplash image that has no `?ixlib=rb-` parameters yet. */
  predicate NeedsHdParams(uri: string) {
    Contains(uri, UnsplashHost) && !Contains(uri, IxlibMarker)
  }

  /** `getHDSource`: a null source or a missing or empty uri is returned as it is. */
  function GetHDSource(src: Option<ImageSource>): (r: Option<ImageSource>)
    ensures src.None? || src.value.uri.None? || src.value.uri.value == "" ==> r == src
    ensures src.Some? && src.value.uri.Some? && src.value.uri.value != "" ==>
      && r.Some? && r.value.otherProps == src.value.otherProps
      && r.value.uri.Some? && src.value.uri.value <= r.value.uri.value
      && (NeedsHdParams(src.value.uri.value) ==> r.value.uri.value == src.value.uri.value + HdParams)
      && (!NeedsHdParams(src.value.uri.value) ==> r == src)
  {
    if src.None? || src.value.uri.None? || src.value.uri.value == "" then src
    else if NeedsHdParams(src.value.uri.value) then Some(src.value.(uri := Some(src.value.uri.value + HdParams)))
    else src
  }

  /** The appended parameters cannot complete an `?ixlib=rb-` that the uri did not already hold. */
  lemma {:induction false} SuffixAddsNoMarker(uri: string)
    requires !Contains(uri, IxlibMarker)
    ensures !Contains(uri + HdParams, IxlibMarker)
  {
    var s := uri + HdParams;
    ContainsIffOccurs(uri, IxlibMarker);
    ContainsIffOccurs(s, IxlibMarker);
    forall i ensures !OccursAt(s, IxlibMarker, i) {
      if 0 <= i && i + 10 <= |s| {
        if i + 10 <= |uri| {
          assert s[i..i + 10] == uri[i..i + 10];
          assert !OccursAt(uri, IxlibMarker, i);
          assert s[i..i + 10] != IxlibMarker;
        } else if i < |uri| {
          // Reaching over the boundary, the window holds the parameters'
          // leading '?' at a place where the marker has none.
          var k := |uri| - i;
          assert s[i..i + 10][k] == s[|uri|] == '?';
          assert IxlibMarker[k] != '?';
          assert s[i..i + 10] != IxlibMarker;
        } else if i == |uri| {
          assert s[i..i + 10][1] == HdParams[1] == 'a';
          assert s[i..i + 10] != IxlibMarker;
        } else {
          assert s[i..i + 10][0] == HdParams[i - |uri|] != '?';
          assert s[i..i + 10] != IxlibMarker;
        }
      }
    }
  }

  /**
   * There is no check for an existing '?', and the appended parameters do not
   * contain the marker, so rewriting a rewritten source appends them again.
   */
  lemma RewriteAppendsAgain(src: ImageSource)
    requires src.uri.Some? && NeedsHdParams(src.uri.value)
    ensures GetHDSource(GetHDSource(Some(src))).value.uri == Some(src.uri.value + HdParams + HdParams)
  {
    ContainsExtendRight(src.uri.value, HdParams, UnsplashHost);
    SuffixAddsNoMarker(src.uri.value);
  }

  /** A source that already carries `?ixlib=rb-` parameters is left alone. */
  lemma IxlibSourceUnchanged(src: ImageSource)
    requires src.uri.Some? && Contains(src.uri.value, IxlibMarker)
    ensures GetHDSource(Some(src)) == Some(src)
  {
  }
}
