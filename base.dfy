/** Small value types and the path joining that main.go relies on. */
module Base {

  datatype Option<+T> = None | Some(value: T)

  /** `path.Join` / `filepath.Join` on clean components: the non-empty
      elements joined by "/", empty elements ignored, "" when every
      element is empty. Lexical cleaning ("//", ".", "..") is not modelled. */
  function JoinPath(elems: seq<string>): (r: string)
    ensures r == "" <==> forall k :: 0 <= k < |elems| ==> elems[k] == ""
    decreases |elems|
  {
    if elems == [] then ""
    else
      var init := JoinPath(elems[..|elems| - 1]);
      var last := elems[|elems| - 1];
      if last == "" then init
      else if init == "" then last
      else init + "/" + last
  }

  /** Equal strings with a common prefix have equal remainders. */
  lemma PrefixCancel(pre: string, a: string, b: string)
    ensures pre + a == pre + b ==> a == b
  {
    if pre + a == pre + b {
      assert (pre + a)[|pre|..] == a;
      assert (pre + b)[|pre|..] == b;
    }
  }

  /** Joining a directory and one element: the separator is added only
      between two non-empty parts. */
  lemma JoinPathPair(dir: string, elem: string)
    ensures JoinPath([dir, elem]) ==
      if dir == "" then elem else if elem == "" then dir else dir + "/" + elem
  {
    assert [dir, elem][..1] == [dir];
    assert [dir][..0] == [];
  }
}
