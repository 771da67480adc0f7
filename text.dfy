/**
 * The parts of Rust's `str` API that the agent relies on, over `string`
 * (a sequence of Unicode scalar values): `trim`, `starts_with`,
 * `trim_start_matches`, `lines` and `join("\n")`.
 */
module Text {

  /** Rust's `char::is_whitespace`: the Unicode White_Space property. */
  predicate IsWhitespace(c: char) {
    var n := c as int;
    (0x09 <= n <= 0x0D) || n == 0x20 || n == 0x85 || n == 0xA0 || n == 0x1680
    || (0x2000 <= n <= 0x200A) || n == 0x2028 || n == 0x2029 || n == 0x202F
    || n == 0x205F || n == 0x3000
  }

  predicate StartsWith(s: string, prefix: string) {
    |prefix| <= |s| && s[..|prefix|] == prefix
  }

  /** `str::trim_start`: drops the leading whitespace. */
  function TrimStart(s: string): (r: string)
    ensures |r| <= |s| && r == s[|s| - |r|..]
    ensures forall k :: 0 <= k < |s| - |r| ==> IsWhitespace(s[k])
    ensures r == [] || !IsWhitespace(r[0])
  {
    if s != [] && IsWhitespace(s[0]) then TrimStart(s[1..]) else s
  }

  /** `str::trim_end`: drops the trailing whitespace. */
  function TrimEnd(s: string): (r: string)
    ensures |r| <= |s| && r == s[..|r|]
    ensures forall k :: |r| <= k < |s| ==> IsWhitespace(s[k])
    ensures r == [] || !IsWhitespace(r[|r| - 1])
  {
    if s != [] && IsWhitespace(s[|s| - 1]) then TrimEnd(s[..|s| - 1]) else s
  }

  /** `str::trim`: `s` without the whitespace at either end. */
  function Trim(s: string): (r: string)
    ensures |r| <= |s|
    ensures r == [] || (!IsWhitespace(r[0]) && !IsWhitespace(r[|r| - 1]))
  {
    TrimEnd(TrimStart(s))
  }

  /** `t` is a whole number of back-to-back copies of the non-empty `prefix`. */
  predicate IsRepetition(t: string, prefix: string)
    requires prefix != []
    decreases |t|
  {
    t == [] || (StartsWith(t, prefix) && IsRepetition(t[|prefix|..], prefix))
  }

  /**
   * `str::trim_start_matches(prefix)`: strips `prefix` again and again from
   * the front, so what it removed is a whole number of copies of `prefix`.
   */
  function TrimStartMatches(s: string, prefix: string): (r: string)
    ensures |r| <= |s| && r == s[|s| - |r|..]
    ensures prefix != [] ==> !StartsWith(r, prefix)
    ensures prefix != [] ==> IsRepetition(s[..|s| - |r|], prefix)
    decreases |s|
  {
    if prefix != [] && StartsWith(s, prefix) then
      var r := TrimStartMatches(s[|prefix|..], prefix);
      assert s[..|s| - |r|][|prefix|..] == s[|prefix|..][..|s| - |prefix| - |r|];
      assert s[..|s| - |r|][..|prefix|] == s[..|prefix|];
      r
    else
      s
  }

  /** Index of the first `c` in `s`, or `|s|` when there is none. */
  function IndexOf(s: string, c: char): (r: nat)
    ensures r <= |s|
    ensures r < |s| ==> s[r] == c
    ensures forall k :: 0 <= k < r ==> s[k] != c
  {
    if s == [] then 0 else if s[0] == c then 0 else 1 + IndexOf(s[1..], c)
  }

  predicate EndsWithCr(s: string) {
    s != [] && s[|s| - 1] == '\r'
  }

  /** The line `str::lines` yields for a piece that was ended by `"\n"`: one `'\r'` before it is dropped. */
  function StripCr(line: string): string {
    if EndsWithCr(line) then line[..|line| - 1] else line
  }

  /**
   * `str::lines`: the pieces of `s` between line feeds, each with the `'\r'`
   * of a `"\r\n"` ending removed; the final line ending is optional, so a
   * final line ending does not start an extra empty line, and `""` yields no
   * line at all.
   */
  function Lines(s: string): seq<string>
    decreases |s|
  {
    if s == [] then []
    else
      var i := IndexOf(s, '\n');
      if i == |s| then [s]
      else [StripCr(s[..i])] + Lines(s[i + 1..])
  }

  /** `[String]::join("\n")`: separators between lines, none after the last. */
  function Join(lines: seq<string>): string {
    if |lines| == 0 then ""
    else if |lines| == 1 then lines[0]
    else lines[0] + "\n" + Join(lines[1..])
  }

  /** A line that can be written followed by `"\n"` and read back unchanged by `Lines`. */
  predicate Terminable(line: string) {
    '\n' !in line && !EndsWithCr(line)
  }

  /** `lines` without its last entry when that entry is the empty line. */
  function DropTrailingBlank(lines: seq<string>): seq<string> {
    if lines != [] && lines[|lines| - 1] == "" then lines[..|lines| - 1] else lines
  }

  /** No line that `Lines` yields contains a line feed. */
  lemma {:induction false} LinesHaveNoLineFeed(s: string)
    ensures forall k :: 0 <= k < |Lines(s)| ==> '\n' !in Lines(s)[k]
    decreases |s|
  {
    if s != [] {
      var i := IndexOf(s, '\n');
      if i < |s| {
        LinesHaveNoLineFeed(s[i + 1..]);
        assert '\n' !in s[..i];
      }
    }
  }

  /** Reading `line + "\n" + rest` yields `line` (less a `"\r"` ending) followed by the lines of `rest`. */
  lemma LinesCons(line: string, rest: string)
    requires '\n' !in line
    ensures Lines(line + "\n" + rest) == [StripCr(line)] + Lines(rest)
  {
    var s := line + "\n" + rest;
    IndexOfFirst(line, rest);
    assert s[..|line|] == line;
    assert s[|line| + 1..] == rest;
  }

  lemma IndexOfFirst(line: string, rest: string)
    requires '\n' !in line
    ensures IndexOf(line + "\n" + rest, '\n') == |line|
  {
    var s := line + "\n" + rest;
    assert forall k :: 0 <= k < |line| ==> s[k] == line[k];
    assert s[|line|] == '\n';
  }

  /** A non-empty `Terminable` prefix followed by a `Terminable` rest is `Terminable`. */
  lemma TerminableConcat(p: string, s: string)
    requires p != [] && Terminable(p) && Terminable(s)
    ensures Terminable(p + s)
  {
    assert forall k :: 0 <= k < |p + s| ==> (p + s)[k] == if k < |p| then p[k] else s[k - |p|];
    assert (p + s)[|p + s| - 1] == if s == [] then p[|p| - 1] else s[|s| - 1];
  }

  lemma NoLineFeedConcat(p: string, s: string)
    requires '\n' !in p && '\n' !in s
    ensures '\n' !in p + s
  {
    assert forall k :: 0 <= k < |p + s| ==> (p + s)[k] == if k < |p| then p[k] else s[k - |p|];
  }

  /** Trimmed text without line feeds is `Terminable`: `'\r'` is whitespace, so it cannot end the text. */
  lemma TrimmedTerminable(s: string)
    requires '\n' !in Trim(s)
    ensures Terminable(Trim(s))
  {
  }

  /** Each line followed by `"\n"`, as `writeln!` writes them one after the other. */
  function Terminated(lines: seq<string>): string {
    if lines == [] then "" else lines[0] + "\n" + Terminated(lines[1..])
  }

  /** Writing one more terminated line appends it to the text. */
  lemma {:induction false} TerminatedAppend(lines: seq<string>, line: string)
    ensures Terminated(lines + [line]) == Terminated(lines) + line + "\n"
  {
    if lines != [] {
      assert (lines + [line])[1..] == lines[1..] + [line];
      TerminatedAppend(lines[1..], line);
    }
  }

  /** Newline-terminated lines read back as themselves when they are `Terminable`. */
  lemma {:induction false} LinesOfTerminated(lines: seq<string>)
    requires forall k :: 0 <= k < |lines| ==> Terminable(lines[k])
    ensures Lines(Terminated(lines)) == lines
  {
    if lines != [] {
      LinesOfTerminated(lines[1..]);
      LinesCons(lines[0], Terminated(lines[1..]));
    }
  }

  /** A text without line feeds is one line, or none when it is empty. */
  lemma LinesOfSingle(line: string)
    requires '\n' !in line
    ensures Lines(line) == if line == [] then [] else [line]
  {
    if line != [] {
      assert IndexOf(line, '\n') == |line|;
    }
  }

  /**
   * Joining lines and reading them back gives the same lines, except that a
   * trailing empty line is lost (the joined text then ends in `"\n"`, which
   * `Lines` treats as an optional final ending). Lines must not contain
   * line feeds, and every line but the last must not end in `'\r'`.
   */
  lemma {:induction false} LinesOfJoin(lines: seq<string>)
    requires forall k :: 0 <= k < |lines| ==> '\n' !in lines[k]
    requires forall k :: 0 <= k < |lines| - 1 ==> !EndsWithCr(lines[k])
    ensures Lines(Join(lines)) == DropTrailingBlank(lines)
  {
    if |lines| == 1 {
      LinesOfSingle(lines[0]);
    } else if |lines| > 1 {
      var tail := lines[1..];
      var rest := Join(tail);
      assert Join(lines) == lines[0] + "\n" + rest;
      LinesCons(lines[0], rest);
      LinesOfJoin(tail);
      assert StripCr(lines[0]) == lines[0];
      DropTrailingBlankCons(lines);
    }
  }

  lemma DropTrailingBlankCons(lines: seq<string>)
    requires |lines| > 1
    ensures DropTrailingBlank(lines) == [lines[0]] + DropTrailingBlank(lines[1..])
  {
    var tail := lines[1..];
    if tail[|tail| - 1] == "" {
      assert [lines[0]] + tail[..|tail| - 1] == lines[..|lines| - 1];
    } else {
      assert [lines[0]] + tail == lines;
    }
  }

  /** Under the conditions of `LinesOfJoin`, with a non-empty last line, joining is undone exactly by `Lines`. */
  lemma LinesOfJoinExact(lines: seq<string>)
    requires forall k :: 0 <= k < |lines| ==> '\n' !in lines[k]
    requires forall k :: 0 <= k < |lines| - 1 ==> !EndsWithCr(lines[k])
    requires lines == [] || lines[|lines| - 1] != ""
    ensures Lines(Join(lines)) == lines
  {
    LinesOfJoin(lines);
  }
}
