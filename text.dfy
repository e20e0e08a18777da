/** The string handling of the OBJ/MTL importer: whitespace tokenisation as done by
    `std::istringstream >>`, the trailing carriage-return strip, `split` on a delimiter
    (`std::getline` pieces with empty ones dropped) and `getDirectory`. */
module ObjText {
  import opened Geometry

  /** The characters `operator>>` skips (the "C" locale's `isspace`). */
  predicate IsSpace(c: char) {
    c == ' ' || c == '\t' || c == '\n' || c == '\r' || c == '\U{0B}' || c == '\U{0C}'
  }

  /** A token `>>` can extract into a string: non-empty and free of white space. */
  predicate IsWord(w: string) {
    w != [] && forall k :: 0 <= k < |w| ==> !IsSpace(w[k])
  }

  /** Length of the run of non-space characters that starts `s`. */
  function RunLength(s: string): (n: nat)
    ensures n <= |s|
    ensures forall k :: 0 <= k < n ==> !IsSpace(s[k])
    ensures n == |s| || IsSpace(s[n])
  {
    if s == [] || IsSpace(s[0]) then 0 else 1 + RunLength(s[1..])
  }

  /** The strings successive `iss >> word` extractions deliver from a line, in order. */
  function Words(s: string): seq<string>
    decreases |s|
  {
    if s == [] then []
    else if IsSpace(s[0]) then Words(s[1..])
    else
      var n := RunLength(s);
      [s[..n]] + Words(s[n..])
  }

  /** The first `iss >> token` of a line: its first word, or "" when it has none. */
  function Token(line: string): string {
    var ws := Words(line);
    if ws == [] then "" else ws[0]
  }

  /** The words after the first one. */
  function Operands(line: string): seq<string> {
    var ws := Words(line);
    if ws == [] then [] else ws[1..]
  }

  /** `if (!line.empty() && line.back() == '\r') line.pop_back();` */
  function StripCR(line: string): string {
    if line != [] && line[|line| - 1] == '\r' then line[..|line| - 1] else line
  }

  /** Words joined by single spaces: the canonical text of a line. */
  function Unwords(ws: seq<string>): string {
    if ws == [] then [] else if |ws| == 1 then ws[0] else ws[0] + " " + Unwords(ws[1..])
  }

  /** Every token `Words` delivers is a real word. */
  lemma {:induction false} WordsAreWords(s: string)
    ensures forall i :: 0 <= i < |Words(s)| ==> IsWord(Words(s)[i])
    decreases |s|
  {
    if s == [] {
    } else if IsSpace(s[0]) {
      WordsAreWords(s[1..]);
    } else {
      var n := RunLength(s);
      WordsAreWords(s[n..]);
      assert Words(s) == [s[..n]] + Words(s[n..]);
    }
  }

  lemma {:induction false} RunLengthOfWord(w: string, rest: string)
    requires IsWord(w)
    requires rest == [] || IsSpace(rest[0])
    ensures RunLength(w + rest) == |w|
    ensures (w + rest)[..|w|] == w && (w + rest)[|w|..] == rest
    decreases |w|
  {
    var s := w + rest;
    assert s[0] == w[0] && !IsSpace(w[0]);
    if |w| > 1 {
      assert IsWord(w[1..]) by {
        forall k | 0 <= k < |w| - 1 ensures !IsSpace(w[1..][k]) { assert w[1..][k] == w[k + 1]; }
      }
      RunLengthOfWord(w[1..], rest);
      assert s[1..] == w[1..] + rest;
    } else {
      assert s[1..] == rest;
    }
    assert s[..|w|] == w;
    assert s[|w|..] == rest;
  }

  lemma WordsSkipSpace(rest: string)
    requires rest != [] && IsSpace(rest[0])
    ensures Words(rest) == Words(rest[1..])
  {
  }

  /** Tokenising the canonical text of a list of words gives the list back. */
  lemma {:induction false} WordsOfUnwords(ws: seq<string>)
    requires forall i :: 0 <= i < |ws| ==> IsWord(ws[i])
    ensures Words(Unwords(ws)) == ws
  {
    if ws == [] {
    } else if |ws| == 1 {
      RunLengthOfWord(ws[0], []);
      assert ws[0] + [] == ws[0];
      assert Words(ws[0]) == [ws[0]] + Words([]);
    } else {
      var w, rest := ws[0], " " + Unwords(ws[1..]);
      RunLengthOfWord(w, rest);
      assert Unwords(ws) == w + rest;
      WordsSkipSpace(rest);
      assert rest[1..] == Unwords(ws[1..]);
      WordsOfUnwords(ws[1..]);
      assert Words(w + rest) == [w] + Words(rest);
    }
  }

  /** A carriage return is white space to `>>`, so stripping it never changes the words. */
  lemma {:induction false} WordsIgnoreTrailingSpace(s: string, c: char)
    requires IsSpace(c)
    ensures Words(s + [c]) == Words(s)
    decreases |s|
  {
    if s == [] {
      assert Words([c]) == Words([]);
    } else if IsSpace(s[0]) {
      assert (s + [c])[1..] == s[1..] + [c];
      WordsIgnoreTrailingSpace(s[1..], c);
    } else {
      var n := RunLength(s);
      RunLengthAppend(s, c);
      assert (s + [c])[..n] == s[..n];
      assert (s + [c])[n..] == s[n..] + [c];
      WordsIgnoreTrailingSpace(s[n..], c);
    }
  }

  lemma {:induction false} RunLengthAppend(s: string, c: char)
    requires IsSpace(c)
    ensures RunLength(s + [c]) == RunLength(s)
    decreases |s|
  {
    if s != [] && !IsSpace(s[0]) {
      assert (s + [c])[1..] == s[1..] + [c];
      RunLengthAppend(s[1..], c);
    }
  }

  lemma StripCRKeepsWords(line: string)
    ensures Words(StripCR(line)) == Words(line)
  {
    if line != [] && line[|line| - 1] == '\r' {
      var s := line[..|line| - 1];
      assert line == s + ['\r'];
      WordsIgnoreTrailingSpace(s, '\r');
    }
  }

  // ---------------------------------------------------------------------------------
  // split

  /** The `d`-separated fields of `s`, empty ones included: `Fields("a//b", '/')` is
      `["a", "", "b"]`. The last field is the text after the last delimiter. */
  function Fields(s: string, d: char): (fs: seq<string>)
    ensures |fs| >= 1
  {
    if s == [] then [""]
    else
      var f := Fields(s[..|s| - 1], d);
      if s[|s| - 1] == d then f + [""] else f[..|f| - 1] + [f[|f| - 1] + [s[|s| - 1]]]
  }

  /** `fs` without its empty strings, order kept. */
  function NonEmpty(fs: seq<string>): seq<string> {
    if fs == [] then []
    else NonEmpty(fs[..|fs| - 1]) + (if fs[|fs| - 1] == [] then [] else [fs[|fs| - 1]])
  }

  /** What `split(s, d)` returns: the `d`-separated pieces of `s` that are not empty. */
  function Pieces(s: string, d: char): seq<string> {
    NonEmpty(Fields(s, d))
  }

  /** Fields glued back together with the delimiter between them. */
  function Join(fs: seq<string>, d: char): string
    requires |fs| >= 1
  {
    if |fs| == 1 then fs[0] else Join(fs[..|fs| - 1], d) + [d] + fs[|fs| - 1]
  }

  /** Fields are a decomposition of `s`: joining them with `d` gives `s` back. */
  lemma {:induction false} JoinFields(s: string, d: char)
    ensures Join(Fields(s, d), d) == s
  {
    if s != [] {
      var p := s[..|s| - 1];
      var f := Fields(p, d);
      JoinFields(p, d);
      if s[|s| - 1] == d {
        assert (f + [""])[..|f|] == f;
        assert s == p + [d];
      } else {
        JoinLast(f, d, s[|s| - 1]);
        assert s == p + [s[|s| - 1]];
      }
    }
  }

  /** Appending a character to the last field appends it to the joined text. */
  lemma JoinLast(f: seq<string>, d: char, c: char)
    requires |f| >= 1
    ensures Join(f[..|f| - 1] + [f[|f| - 1] + [c]], d) == Join(f, d) + [c]
  {
    var g := f[..|f| - 1] + [f[|f| - 1] + [c]];
    if |f| > 1 {
      assert g[..|g| - 1] == f[..|f| - 1];
    }
  }

  /** No field contains the delimiter. */
  lemma {:induction false} FieldsFree(s: string, d: char)
    ensures forall i :: 0 <= i < |Fields(s, d)| ==> d !in Fields(s, d)[i]
  {
    if s != [] {
      FieldsFree(s[..|s| - 1], d);
    }
  }

  /** One more character closes the last field or extends it. */
  lemma FieldsSnoc(s: string, c: char, d: char)
    ensures var f := Fields(s, d);
      Fields(s + [c], d) == if c == d then f + [""] else f[..|f| - 1] + [f[|f| - 1] + [c]]
  {
    assert (s + [c])[..|s|] == s;
  }

  /** `NonEmpty` keeps exactly the non-empty entries. */
  lemma {:induction false} NonEmptyKeeps(fs: seq<string>, d: char)
    requires forall i :: 0 <= i < |fs| ==> d !in fs[i]
    ensures forall i :: 0 <= i < |NonEmpty(fs)| ==> NonEmpty(fs)[i] != [] && d !in NonEmpty(fs)[i]
  {
    if fs != [] {
      NonEmptyKeeps(fs[..|fs| - 1], d);
    }
  }

  /** `split` never returns an empty piece, nor one holding the delimiter. */
  lemma PiecesShape(s: string, d: char)
    ensures forall i :: 0 <= i < |Pieces(s, d)| ==> Pieces(s, d)[i] != [] && d !in Pieces(s, d)[i]
  {
    FieldsFree(s, d);
    NonEmptyKeeps(Fields(s, d), d);
  }

  lemma NonEmptySnoc(fs: seq<string>, x: string)
    ensures NonEmpty(fs + [x]) == NonEmpty(fs) + (if x == [] then [] else [x])
  {
    assert (fs + [x])[..|fs|] == fs;
  }

  /** One more character either closes the current field or extends it. */
  lemma FieldsStep(s: string, i: nat, d: char, done: seq<string>, item: string)
    requires i < |s| && Fields(s[..i], d) == done + [item]
    ensures s[i] == d ==> Fields(s[..i + 1], d) == done + [item] + [""]
    ensures s[i] != d ==> Fields(s[..i + 1], d) == done + [item + [s[i]]]
  {
    assert s[..i + 1][..i] == s[..i];
    assert (done + [item])[..|done|] == done;
  }

  /** `split`: reads the text up to each delimiter (the last piece ends with the string)
      and keeps the pieces that are not empty. */
  method Split(s: string, d: char) returns (result: seq<string>)
    ensures result == Pieces(s, d)
  {
    result := [];
    var done: seq<string> := [];
    var item: string := [];
    var i := 0;
    while i < |s|
      invariant 0 <= i <= |s|
      invariant Fields(s[..i], d) == done + [item]
      invariant result == NonEmpty(done)
    {
      FieldsStep(s, i, d, done, item);
      if s[i] == d {
        NonEmptySnoc(done, item);
        if item != [] {
          result := result + [item];
        }
        done := done + [item];
        item := [];
      } else {
        item := item + [s[i]];
      }
      i := i + 1;
    }
    assert s[..i] == s;
    NonEmptySnoc(done, item);
    if item != [] {
      result := result + [item];
    }
  }

  // ---------------------------------------------------------------------------------
  // getDirectory

  predicate IsSeparator(c: char) {
    c == '/' || c == '\\'
  }

  /** `find_last_of("/\\")`: the position of the last separator, if any. */
  function LastSeparator(s: string): (p: Option<nat>)
    ensures p.Some? ==> p.value < |s| && IsSeparator(s[p.value])
    ensures p.Some? ==> forall k :: p.value < k < |s| ==> !IsSeparator(s[k])
    ensures p.None? ==> forall k :: 0 <= k < |s| ==> !IsSeparator(s[k])
  {
    if s == [] then None
    else if IsSeparator(s[|s| - 1]) then Some(|s| - 1)
    else LastSeparator(s[..|s| - 1])
  }

  /** `getDirectory`: the longest prefix of `path` that ends in '/' or '\\', which is ""
      exactly when the path holds no separator. */
  function GetDirectory(path: string): (dir: string)
    ensures dir <= path
    ensures dir == [] || IsSeparator(dir[|dir| - 1])
    ensures forall k :: |dir| <= k < |path| ==> !IsSeparator(path[k])
    ensures dir == [] <==> forall k :: 0 <= k < |path| ==> !IsSeparator(path[k])
  {
    match LastSeparator(path)
    case None => []
    case Some(p) => path[..p + 1]
  }
}
