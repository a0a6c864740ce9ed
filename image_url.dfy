/** The public id of a stored image, read off its URL by
    `url.split('/').pop().split('.')[0]`. */
module ImageUrl {

  /** `s.split('/').pop()`: what follows the last '/', or all of `s` when it
      has none. */
  function LastSegment(s: string): (r: string)
    ensures |r| <= |s| && r == s[|s| - |r|..]
    ensures '/' !in r
    ensures |r| < |s| ==> s[|s| - |r| - 1] == '/'
  {
    if s == [] then []
    else if s[|s| - 1] == '/' then []
    else LastSegment(s[..|s| - 1]) + [s[|s| - 1]]
  }

  /** `s.split('.')[0]`: what precedes the first '.', or all of `s` when it
      has none. */
  function BeforeFirstDot(s: string): (r: string)
    ensures |r| <= |s| && r == s[..|r|]
    ensures '.' !in r
    ensures |r| < |s| ==> s[|r|] == '.'
  {
    if s == [] then []
    else if s[0] == '.' then []
    else [s[0]] + BeforeFirstDot(s[1..])
  }

  /** The public id the handlers pass to the image store's `destroy`. */
  function PublicId(url: string): (id: string)
    ensures '/' !in id && '.' !in id
  {
    BeforeFirstDot(LastSegment(url))
  }

  lemma {:induction false} LastSegmentAfterSlash(prefix: string, tail: string)
    requires '/' !in tail
    ensures LastSegment(prefix + "/" + tail) == tail
  {
    var s := prefix + "/" + tail;
    if tail == [] {
      assert s[|s| - 1] == '/';
    } else {
      var init := tail[..|tail| - 1];
      assert s[..|s| - 1] == prefix + "/" + init;
      assert '/' !in init by {
        forall i | 0 <= i < |init| ensures init[i] != '/' { assert init[i] == tail[i]; }
      }
      LastSegmentAfterSlash(prefix, init);
      assert tail == init + [tail[|tail| - 1]];
    }
  }

  lemma {:induction false} BeforeDot(name: string, rest: string)
    requires '.' !in name
    ensures BeforeFirstDot(name + "." + rest) == name
  {
    var s := name + "." + rest;
    if name != [] {
      assert s[1..] == name[1..] + "." + rest;
      BeforeDot(name[1..], rest);
    }
  }

  /** An image stored as `<location>/<id>.<extension>`, with neither '/' nor
      '.' in the id and no '/' in the extension, yields back its id. */
  lemma PublicIdOfStoredImage(location: string, id: string, extension: string)
    requires '/' !in id && '.' !in id && '/' !in extension
    ensures PublicId(location + "/" + id + "." + extension) == id
  {
    var tail := id + "." + extension;
    assert '/' !in tail by {
      forall i | 0 <= i < |tail| ensures tail[i] != '/' {
        if i < |id| { assert tail[i] == id[i]; }
        else if i > |id| { assert tail[i] == extension[i - |id| - 1]; }
      }
    }
    assert location + "/" + id + "." + extension == location + "/" + tail;
    LastSegmentAfterSlash(location, tail);
    BeforeDot(id, extension);
  }
}
