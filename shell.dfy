/** How `/bin/bash -c` cuts a command line without quotes or escapes into
    words: runs of non-space characters separated by spaces. */
module Shell {
  /** Length of the leading run of non-space characters. */
  function WordEnd(s: string): (n: nat)
    ensures n <= |s|
    ensures forall i :: 0 <= i < n ==> s[i] != ' '
    ensures n < |s| ==> s[n] == ' '
    decreases |s|
  {
    if s == "" || s[0] == ' ' then 0 else 1 + WordEnd(s[1..])
  }

  /** The space-separated words of a command line (no quoting). */
  function Words(s: string): seq<string>
    decreases |s|
  {
    if s == "" then []
    else if s[0] == ' ' then Words(s[1..])
    else
      var n := WordEnd(s);
      assert n > 0 by { assert s[0] != ' '; }
      [s[..n]] + Words(s[n..])
  }

  /** Joining two command lines with a space joins their word lists. */
  lemma {:induction false} WordsAppend(a: string, b: string)
    ensures Words(a + " " + b) == Words(a) + Words(b)
    decreases |a|
  {
    var s := a + " " + b;
    if a == "" {
      assert s[1..] == b;
    } else if a[0] == ' ' {
      assert s[1..] == a[1..] + " " + b;
      WordsAppend(a[1..], b);
    } else {
      var n := WordEnd(a);
      WordEndAt(s, n);
      assert s[..n] == a[..n];
      assert s[n..] == a[n..] + " " + b;
      WordsAppend(a[n..], b);
    }
  }

  /** A line whose first `n` characters are a word followed by a space. */
  lemma LeadingWord(s: string, n: nat)
    requires 0 < n < |s| && s[n] == ' '
    requires forall i :: 0 <= i < n ==> s[i] != ' '
    ensures Words(s) == [s[..n]] + Words(s[n + 1..])
  {
    assert WordEnd(s) == n by { WordEndAt(s, n); }
    assert Words(s[n..]) == Words(s[n + 1..]);
  }

  lemma {:induction false} WordEndAt(s: string, n: nat)
    requires n < |s| && s[n] == ' '
    requires forall i :: 0 <= i < n ==> s[i] != ' '
    ensures WordEnd(s) == n
    decreases n
  {
    if n > 0 {
      WordEndAt(s[1..], n - 1);
    }
  }

  /** A word with no space in it. */
  predicate SpaceFree(w: string)
  {
    w != "" && forall i :: 0 <= i < |w| ==> w[i] != ' '
  }

  /** `<w> <rest>` for a word `w` without spaces. */
  lemma LiteralWord(w: string, rest: string)
    requires SpaceFree(w)
    ensures Words(w + " " + rest) == [w] + Words(rest)
  {
    var s := w + " " + rest;
    LeadingWord(s, |w|);
    assert s[..|w|] == w;
    assert s[|w| + 1..] == rest;
  }

  /** Two leading space-free words. */
  lemma TwoWords(a: string, b: string, rest: string)
    requires SpaceFree(a) && SpaceFree(b)
    ensures Words(a + " " + b + " " + rest) == [a, b] + Words(rest)
  {
    var r1 := b + " " + rest;
    assert a + " " + b + " " + rest == a + " " + r1;
    LiteralWord(b, rest);
    LiteralWord(a, r1);
  }

  /** Three leading space-free words. */
  lemma ThreeWords(a: string, b: string, c: string, rest: string)
    requires SpaceFree(a) && SpaceFree(b) && SpaceFree(c)
    ensures Words(a + " " + b + " " + c + " " + rest) == [a, b, c] + Words(rest)
  {
    var r1 := c + " " + rest;
    assert a + " " + b + " " + c + " " + rest == a + " " + b + " " + r1;
    LiteralWord(c, rest);
    TwoWords(a, b, r1);
  }

  /** `mkdir -p <dir>` splits into `mkdir`, `-p` and the words of `dir`. */
  lemma MkdirLineWords(dir: string)
    ensures Words("mkdir -p " + dir) == ["mkdir", "-p"] + Words(dir)
  {
    assert "mkdir" + " " + "-p" + " " == "mkdir -p ";
    TwoWords("mkdir", "-p", dir);
  }

  /** A space-free word, a space, a line `dir`, a space and the rest. */
  lemma WordThenLine(a: string, dir: string, rest: string)
    requires SpaceFree(a)
    ensures Words(a + " " + dir + " " + rest) == [a] + Words(dir) + Words(rest)
  {
    assert a + " " + dir + " " + rest == a + " " + (dir + " " + rest);
    LiteralWord(a, dir + " " + rest);
    WordsAppend(dir, rest);
  }

  /** `cd <dir> && apt download <q>` splits into `cd`, the words of `dir`,
      `&&`, `apt`, `download` and the words of `q`. */
  lemma DownloadLineWords(dir: string, q: string)
    ensures Words("cd " + dir + " && apt download " + q)
      == ["cd"] + Words(dir) + ["&&", "apt", "download"] + Words(q)
  {
    var tail := "&& apt download " + q;
    assert "cd" + " " == "cd ";
    assert " " + "&& apt download " == " && apt download ";
    assert "cd " + dir + " && apt download " + q == "cd" + " " + dir + " " + tail;
    WordThenLine("cd", dir, tail);
    assert "&&" + " " + "apt" + " " + "download" + " " == "&& apt download ";
    ThreeWords("&&", "apt", "download", q);
  }

  /** `dpkg -i --force-all <f>` splits into `dpkg`, `-i`, `--force-all` and the words of `f`. */
  lemma DpkgLineWords(f: string)
    ensures Words("dpkg -i --force-all " + f) == ["dpkg", "-i", "--force-all"] + Words(f)
  {
    assert "dpkg" + " " + "-i" + " " + "--force-all" + " " == "dpkg -i --force-all ";
    ThreeWords("dpkg", "-i", "--force-all", f);
  }
}
