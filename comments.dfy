/**
 * The comment that `add_failure` and `add_error` attach to a finished item:
 * `[line for line in exception_string.split("\n") if line][-1]`.
 */
module Comments {
  import opened Common

  /** No piece of a split text contains the separator. */
  predicate NoNewline(line: string) {
    '\n' !in line
  }

  /**
   * Python's `s.split("\n")`: the pieces between separators, in order. There is
   * always one piece more than there are separators, so `""` splits to `[""]`.
   */
  function Split(s: string): (pieces: seq<string>)
    ensures |pieces| >= 1
    ensures forall i :: 0 <= i < |pieces| ==> NoNewline(pieces[i])
  {
    if s == [] then [""]
    else
      var rest := Split(s[1..]);
      if s[0] == '\n' then [""] + rest
      else [[s[0]] + rest[0]] + rest[1..]
  }

  /** Python's `"\n".join(pieces)`: the inverse of Split. */
  function Join(pieces: seq<string>): string {
    if |pieces| == 0 then ""
    else if |pieces| == 1 then pieces[0]
    else pieces[0] + "\n" + Join(pieces[1..])
  }

  /** Joining after growing the first piece by one character. */
  lemma JoinCons(c: char, rest: seq<string>)
    requires |rest| >= 1
    ensures Join([[c] + rest[0]] + rest[1..]) == [c] + Join(rest)
  {
  }

  /** Splitting loses nothing: joining the pieces gives the text back. */
  lemma {:induction false} JoinSplit(s: string)
    ensures Join(Split(s)) == s
  {
    if s != [] {
      var rest := Split(s[1..]);
      JoinSplit(s[1..]);
      if s[0] == '\n' {
        assert ([""] + rest)[1..] == rest;
        assert Join([""] + rest) == "" + "\n" + Join(rest);
      } else {
        JoinCons(s[0], rest);
      }
      assert [s[0]] + s[1..] == s;
    }
  }

  /** Splitting a text that starts with a separator-free prefix. */
  lemma {:induction false} SplitPrefix(a: string, t: string)
    requires NoNewline(a)
    ensures Split(a + t) == [a + Split(t)[0]] + Split(t)[1..]
  {
    var st := Split(t);
    if a == [] {
      assert a + t == t;
      assert a + st[0] == st[0];
      assert [a + st[0]] + st[1..] == st;
    } else {
      assert (a + t)[0] == a[0] != '\n';
      assert (a + t)[1..] == a[1..] + t;
      SplitPrefix(a[1..], t);
      var rest := Split(a[1..] + t);
      assert rest[1..] == st[1..];
      assert [a[0]] + (a[1..] + st[0]) == a + st[0];
    }
  }

  /** Splitting undoes joining, for separator-free pieces. */
  lemma {:induction false} SplitJoin(pieces: seq<string>)
    requires |pieces| >= 1
    requires forall i :: 0 <= i < |pieces| ==> NoNewline(pieces[i])
    ensures Split(Join(pieces)) == pieces
  {
    if |pieces| == 1 {
      SplitPrefix(pieces[0], "");
      assert pieces[0] + "" == pieces[0];
    } else {
      var tail := Join(pieces[1..]);
      SplitJoin(pieces[1..]);
      assert pieces[0] + "\n" + tail == pieces[0] + ("\n" + tail);
      SplitPrefix(pieces[0], "\n" + tail);
      assert ("\n" + tail)[1..] == tail;
      assert Split("\n" + tail) == [""] + pieces[1..];
      assert pieces[0] + "" == pieces[0];
      assert [pieces[0]] + pieces[1..] == pieces;
    }
  }

  /** Every piece is empty exactly when the text is made of separators only. */
  lemma {:induction false} AllPiecesEmpty(s: string)
    ensures (forall i :: 0 <= i < |Split(s)| ==> Split(s)[i] == "")
        <==> (forall i :: 0 <= i < |s| ==> s[i] == '\n')
  {
    if s != [] {
      AllPiecesEmpty(s[1..]);
      var rest := Split(s[1..]);
      if s[0] == '\n' {
        assert Split(s) == [""] + rest;
        if forall i :: 0 <= i < |rest| ==> rest[i] == "" {
          assert forall i :: 0 < i < |s| ==> s[i] == s[1..][i - 1];
        } else {
          var j :| 0 <= j < |rest| && rest[j] != "";
          assert Split(s)[j + 1] != "";
          var m :| 0 <= m < |s[1..]| && s[1..][m] != '\n';
          assert s[m + 1] != '\n';
        }
      } else {
        assert Split(s)[0] == [s[0]] + rest[0];
      }
    }
  }

  /** `[line for line in lines if line]`: exactly the non-empty pieces are kept. */
  function NonEmptyLines(lines: seq<string>): (kept: seq<string>)
    ensures forall i :: 0 <= i < |kept| ==> kept[i] != ""
    ensures forall line :: line in kept <==> line in lines && line != ""
    ensures |kept| == 0 <==> forall i :: 0 <= i < |lines| ==> lines[i] == ""
  {
    if lines == [] then []
    else
      var rest := NonEmptyLines(lines[1..]);
      assert forall i :: 1 <= i < |lines| ==> lines[i] == lines[1..][i - 1];
      if lines[0] != "" then [lines[0]] + rest else rest
  }

  /** `line` is a piece of `lines` and every piece after it is empty. */
  ghost predicate IsLastNonEmpty(lines: seq<string>, line: string) {
    line != "" &&
    exists k :: 0 <= k < |lines| && lines[k] == line &&
      forall j :: k < j < |lines| ==> lines[j] == ""
  }

  /** The last kept line is the last non-empty piece. */
  lemma {:induction false} LastKeptIsLastNonEmpty(lines: seq<string>)
    requires |NonEmptyLines(lines)| > 0
    ensures IsLastNonEmpty(lines, NonEmptyLines(lines)[|NonEmptyLines(lines)| - 1])
  {
    var kept := NonEmptyLines(lines);
    var last := kept[|kept| - 1];
    var rest := NonEmptyLines(lines[1..]);
    if |rest| > 0 {
      LastKeptIsLastNonEmpty(lines[1..]);
      assert last == rest[|rest| - 1];
      var k :| 0 <= k < |lines[1..]| && lines[1..][k] == last &&
        forall j :: k < j < |lines[1..]| ==> lines[1..][j] == "";
      assert lines[k + 1] == last;
      assert forall j :: k + 1 < j < |lines| ==> lines[j] == lines[1..][j - 1];
    } else {
      assert last == lines[0];
      assert forall j :: 0 < j < |lines| ==> lines[j] == lines[1..][j - 1];
    }
  }

  /**
   * The comment for a failure or an error: the last non-empty line of the
   * exception text. `None` stands for the IndexError that `[...][-1]` raises
   * when there is no such line, which happens exactly when the text consists
   * of line breaks only (the empty text included).
   */
  function Reason(exceptionString: string): (comment: Option<string>)
    ensures comment.None? <==> forall i :: 0 <= i < |exceptionString| ==> exceptionString[i] == '\n'
    ensures comment.Some? ==> NoNewline(comment.value)
    ensures comment.Some? ==> IsLastNonEmpty(Split(exceptionString), comment.value)
  {
    var lines := NonEmptyLines(Split(exceptionString));
    AllPiecesEmpty(exceptionString);
    if |lines| == 0 then None
    else
      LastKeptIsLastNonEmpty(Split(exceptionString));
      Some(lines[|lines| - 1])
  }

  /** The comment of joined pieces is the last non-empty piece. */
  lemma {:induction false} ReasonOfJoined(pieces: seq<string>, k: nat)
    requires k < |pieces|
    requires forall i :: 0 <= i < |pieces| ==> NoNewline(pieces[i])
    requires pieces[k] != ""
    requires forall j :: k < j < |pieces| ==> pieces[j] == ""
    ensures Reason(Join(pieces)) == Some(pieces[k])
  {
    SplitJoin(pieces);
    var r := Reason(Join(pieces));
    assert Split(Join(pieces))[k] != "";
    assert r.Some?;
    var k' :| 0 <= k' < |pieces| && pieces[k'] == r.value &&
      forall j :: k' < j < |pieces| ==> pieces[j] == "";
    assert k' == k;
  }

  /** A traceback's comment is its last line, the exception summary. */
  lemma TracebackComment()
    ensures Reason("Traceback...\nAssertionError: x != y") == Some("AssertionError: x != y")
  {
    var pieces := ["Traceback...", "AssertionError: x != y"];
    assert Join(pieces) == "Traceback...\nAssertionError: x != y";
    ReasonOfJoined(pieces, 1);
  }

  /** Trailing line breaks are skipped; a whitespace-only line is kept. */
  lemma TrailingAndBlankLines()
    ensures Reason("Exception message.\n\n") == Some("Exception message.")
    ensures Reason("Exception message.\n  \n") == Some("  ")
  {
    var trailing := ["Exception message.", "", ""];
    assert Join(trailing) == "Exception message.\n\n";
    ReasonOfJoined(trailing, 0);
    var blank := ["Exception message.", "  ", ""];
    assert Join(blank) == "Exception message.\n  \n";
    ReasonOfJoined(blank, 1);
  }
}
