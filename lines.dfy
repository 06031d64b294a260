/**
 * Files as text, the way the rewrite steps use them: each `write` appends a
 * chunk to the file's text, and `readlines()` cuts the text after every
 * newline.  A chunk that holds a newline therefore comes back as more than
 * one line, and a last line without a newline comes back joined to nothing.
 */
module Lines {

  /** The text of several writes, one after the other. */
  function Concat(parts: seq<string>): (text: string)
    decreases |parts|
  {
    if |parts| == 0 then "" else parts[0] + Concat(parts[1..])
  }

  lemma {:induction false} ConcatAppend(a: seq<string>, b: seq<string>)
    ensures Concat(a + b) == Concat(a) + Concat(b)
    decreases |a|
  {
    if |a| == 0 {
      assert a + b == b;
    } else {
      assert (a + b)[0] == a[0];
      assert (a + b)[1..] == a[1..] + b;
      ConcatAppend(a[1..], b);
    }
  }

  /** Writing one more chunk appends it to the text. */
  lemma ConcatSnoc(parts: seq<string>, chunk: string)
    ensures Concat(parts + [chunk]) == Concat(parts) + chunk
  {
    ConcatAppend(parts, [chunk]);
    assert [chunk][1..] == [];
  }

  lemma ConcatExtends(parts: seq<string>, i: nat)
    requires i < |parts|
    ensures Concat(parts[..i + 1]) == Concat(parts[..i]) + parts[i]
  {
    assert parts[..i + 1] == parts[..i] + [parts[i]];
    ConcatSnoc(parts[..i], parts[i]);
  }

  predicate EndsInNewline(s: string) {
    |s| > 0 && s[|s| - 1] == '\n'
  }

  /** A line as `readlines` returns it: not empty, and a newline at most at its end. */
  predicate IsLine(line: string) {
    |line| > 0 && forall i :: 0 <= i < |line| - 1 ==> line[i] != '\n'
  }

  /** What `readlines` returns: lines, each of which but the last ends in a newline. */
  predicate IsLines(lines: seq<string>) {
    (forall i :: 0 <= i < |lines| ==> IsLine(lines[i]))
    && (forall i :: 0 <= i < |lines| - 1 ==> EndsInNewline(lines[i]))
  }

  /** The length of the first line of `text`: up to and including its first newline, or all of it. */
  function FirstLineLength(text: string): (n: nat)
    requires |text| > 0
    ensures 0 < n <= |text|
    ensures IsLine(text[..n])
    ensures n < |text| ==> text[n - 1] == '\n'
    decreases |text|
  {
    if text[0] == '\n' || |text| == 1 then 1
    else
      var m := FirstLineLength(text[1..]);
      assert text[..m + 1] == [text[0]] + text[1..][..m];
      m + 1
  }

  /** `readlines()` on a file holding `text`. */
  function ReadLines(text: string): (lines: seq<string>)
    ensures IsLines(lines)
    ensures Concat(lines) == text
    decreases |text|
  {
    if |text| == 0 then []
    else
      var n := FirstLineLength(text);
      var rest := ReadLines(text[n..]);
      var lines := [text[..n]] + rest;
      assert lines[1..] == rest;
      assert text[..n] + text[n..] == text;
      assert |rest| > 0 ==> n < |text|;
      lines
  }

  lemma {:induction false} FirstLineOf(line: string, rest: string)
    requires IsLine(line)
    requires EndsInNewline(line) || |rest| == 0
    ensures FirstLineLength(line + rest) == |line|
    decreases |line|
  {
    var text := line + rest;
    if |line| > 1 {
      assert text[0] == line[0] && line[0] != '\n';
      assert text[1..] == line[1..] + rest;
      FirstLineOf(line[1..], rest);
    }
  }

  /** A line that ends in a newline, or ends the text, is the first line `readlines` gives. */
  lemma ReadLinesCons(line: string, rest: string)
    requires IsLine(line)
    requires EndsInNewline(line) || |rest| == 0
    ensures ReadLines(line + rest) == [line] + ReadLines(rest)
  {
    var text := line + rest;
    FirstLineOf(line, rest);
    assert text[..|line|] == line;
    assert text[|line|..] == rest;
  }

  /** Text written as lines reads back as those same lines. */
  lemma {:induction false} ReadLinesOfLines(lines: seq<string>)
    requires IsLines(lines)
    ensures ReadLines(Concat(lines)) == lines
    decreases |lines|
  {
    if |lines| > 0 {
      var rest := lines[1..];
      assert Concat(lines) == lines[0] + Concat(rest);
      assert |rest| == 0 ==> Concat(rest) == "";
      ReadLinesCons(lines[0], Concat(rest));
      assert IsLines(rest) by {
        assert forall i :: 0 <= i < |rest| ==> rest[i] == lines[i + 1];
      }
      ReadLinesOfLines(rest);
      assert lines == [lines[0]] + rest;
    }
  }

  /** A single line is read back as itself. */
  lemma ReadLinesOneLine(line: string)
    requires IsLine(line)
    ensures ReadLines(line) == [line]
  {
    assert Concat([line]) == line by {
      assert [line][1..] == [];
    }
    ReadLinesOfLines([line]);
  }

  lemma AppendAssociates(a: string, b: string, c: string)
    ensures (a + b) + c == a + (b + c)
  {
  }

  /** Two runs of lines join into one when the first run is empty or ends in a newline. */
  lemma LinesJoin(x: seq<string>, y: seq<string>)
    requires IsLines(x) && IsLines(y)
    requires |x| == 0 || EndsInNewline(x[|x| - 1])
    ensures IsLines(x + y)
  {
    assert forall i :: 0 <= i < |x| ==> (x + y)[i] == x[i];
    assert forall i :: |x| <= i < |x| + |y| ==> (x + y)[i] == y[i - |x|];
  }

  /** Text that ends in a newline is read as its own lines followed by the lines of what comes after it. */
  lemma ReadLinesAppend(a: string, b: string)
    requires |a| == 0 || EndsInNewline(a)
    ensures ReadLines(a + b) == ReadLines(a) + ReadLines(b)
  {
    var x, y := ReadLines(a), ReadLines(b);
    if |x| > 0 {
      ConcatLastLine(x);
    }
    LinesJoin(x, y);
    ConcatAppend(x, y);
    ReadLinesOfLines(x + y);
  }

  /** The text of several non-empty parts ends in a newline exactly when the last part does. */
  lemma ConcatLastLine(parts: seq<string>)
    requires |parts| > 0 && |parts[|parts| - 1]| > 0
    ensures EndsInNewline(Concat(parts)) <==> EndsInNewline(parts[|parts| - 1])
  {
    var k := |parts| - 1;
    assert parts == parts[..k] + [parts[k]];
    ConcatAppend(parts[..k], [parts[k]]);
    assert [parts[k]][1..] == [];
  }

  /** A line with no newline at its end followed by another line is still one line. */
  lemma GluedLine(last: string, line: string)
    requires IsLine(last) && !EndsInNewline(last) && IsLine(line)
    ensures IsLine(last + line)
  {
    var glued := last + line;
    assert forall i :: 0 <= i < |last| ==> glued[i] == last[i] && last[i] != '\n';
    assert forall i :: |last| <= i < |glued| ==> glued[i] == line[i - |last|];
  }

  /** Non-empty text is its lines but the last, then its last line. */
  lemma LastLineSplit(text: string)
    requires |text| > 0
    ensures var lines := ReadLines(text);
            var k := |lines| - 1;
            |lines| > 0 && IsLines(lines[..k]) && IsLine(lines[k])
            && text == Concat(lines[..k]) + lines[k]
            && (EndsInNewline(text) <==> EndsInNewline(lines[k]))
            && (k == 0 || EndsInNewline(lines[..k][k - 1]))
  {
    var lines := ReadLines(text);
    var k := |lines| - 1;
    LinesPrefix(lines, k);
    assert lines == lines[..k] + [lines[k]];
    ConcatSnoc(lines[..k], lines[k]);
    assert text[|text| - 1] == lines[k][|lines[k]| - 1];
  }

  lemma LinesPrefix(lines: seq<string>, k: nat)
    requires IsLines(lines) && k <= |lines|
    ensures IsLines(lines[..k])
  {
    assert forall i :: 0 <= i < k ==> lines[..k][i] == lines[i];
  }

  /** Lines followed by one more line read back as those lines and that line. */
  lemma LinesSnoc(init: seq<string>, line: string)
    requires IsLines(init) && IsLine(line)
    requires |init| == 0 || EndsInNewline(init[|init| - 1])
    ensures ReadLines(Concat(init) + line) == init + [line]
  {
    LinesJoin(init, [line]);
    ConcatSnoc(init, line);
    ReadLinesOfLines(init + [line]);
  }

  /**
   * Lines, then a last line that lacks a newline, then one more line: that
   * line is glued onto the last one.
   */
  lemma ReadLinesGlued(init: seq<string>, last: string, line: string)
    requires IsLines(init) && (|init| == 0 || EndsInNewline(init[|init| - 1]))
    requires IsLine(last) && !EndsInNewline(last) && IsLine(line)
    ensures ReadLines(Concat(init) + (last + line)) == init + [last + line]
  {
    GluedLine(last, line);
    LinesSnoc(init, last + line);
  }

  /** Text whose last line lacks a newline, followed by a line: that line is glued onto the last one. */
  lemma ReadLinesGluedText(text: string, line: string)
    requires |text| > 0 && !EndsInNewline(text) && IsLine(line)
    ensures var lines := ReadLines(text);
            |lines| > 0 && ReadLines(text + line) == lines[..|lines| - 1] + [lines[|lines| - 1] + line]
  {
    var lines := ReadLines(text);
    var k := |lines| - 1;
    var init, last := lines[..k], lines[k];
    assert text == Concat(init) + last && IsLines(init) && IsLine(last) && !EndsInNewline(last)
           && (k == 0 || EndsInNewline(init[k - 1])) by {
      LastLineSplit(text);
    }
    AppendAssociates(Concat(init), last, line);
    ReadLinesGlued(init, last, line);
  }

  /** A line ending in a newline followed by `m` newlines reads as that line and `m` empty lines. */
  lemma LineThenNewlines(line: string, m: nat)
    requires IsLine(line) && EndsInNewline(line)
    ensures ReadLines(line + Newlines(m)) == [line] + BlankLines(m)
  {
    ReadLinesAppend(line, Newlines(m));
    ReadLinesOneLine(line);
    ReadNewlines(m);
  }

  /** `k` newline characters. */
  function Newlines(k: nat): (text: string)
    ensures |text| == k
  {
    seq(k, i => '\n')
  }

  lemma NewlinesCons(k: nat)
    ensures Newlines(k + 1) == "\n" + Newlines(k)
  {
  }

  /** `k` empty lines. */
  function BlankLines(k: nat): (lines: seq<string>)
    ensures |lines| == k
  {
    seq(k, i => "\n")
  }

  lemma {:induction false} ConcatBlankLines(k: nat)
    ensures Concat(BlankLines(k)) == Newlines(k)
    decreases k
  {
    if k > 0 {
      assert BlankLines(k)[1..] == BlankLines(k - 1);
      ConcatBlankLines(k - 1);
      NewlinesCons(k - 1);
    }
  }

  /** A run of newlines is read as that many empty lines. */
  lemma ReadNewlines(k: nat)
    ensures ReadLines(Newlines(k)) == BlankLines(k)
  {
    ConcatBlankLines(k);
    ReadLinesOfLines(BlankLines(k));
  }
}
