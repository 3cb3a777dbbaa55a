/** The newline normalisation of the mail body (internal/domain/mailer/mailer.go). */
module Newlines {

  const LF := "\n"
  const CRLF := "\r\n"

  /** Non-overlapping occurrences, from the left. */
  function ReplaceAll(s: string, from: string, to: string): string
    requires from != ""
    decreases |s|
  {
    if |s| < |from| then s
    else if s[..|from|] == from then to + ReplaceAll(s[|from|..], from, to)
    else [s[0]] + ReplaceAll(s[1..], from, to)
  }

  /** The two passes of the code. */
  function Normalise(s: string): string {
    ReplaceAll(ReplaceAll(s, CRLF, LF), LF, CRLF)
  }

  /** A bare line feed, at `i`. */
  predicate BareAt(s: string, i: nat)
    requires i < |s|
  {
    s[i] == '\n' && (i == 0 || s[i - 1] != '\r')
  }

  /** One pass that puts a carriage return before each bare line feed, and changes nothing
      else: `afterCR` says whether a carriage return stands before `s`. */
  function Repaired(s: string, afterCR: bool): string {
    if s == "" then ""
    else (if s[0] == '\n' && !afterCR then CRLF else [s[0]]) + Repaired(s[1..], s[0] == '\r')
  }

  function LineFeeds(s: string): nat {
    if s == "" then 0 else (if s[0] == '\n' then 1 else 0) + LineFeeds(s[1..])
  }

  /** Collapsing undoes expanding on every string, stray carriage returns included. */
  lemma {:induction false} CollapseUndoesExpand(s: string)
    ensures ReplaceAll(ReplaceAll(s, LF, CRLF), CRLF, LF) == s
  {
    if s != "" {
      var rest := ReplaceAll(s[1..], LF, CRLF);
      CollapseUndoesExpand(s[1..]);
      assert s == [s[0]] + s[1..];
      if s[0] == '\n' {
        assert s[..1] == LF;
        var t := CRLF + rest;
        assert ReplaceAll(s, LF, CRLF) == t && t[..2] == CRLF && t[2..] == rest;
      } else {
        assert s[..1] != LF;
        var t := [s[0]] + rest;
        assert ReplaceAll(s, LF, CRLF) == t && t[1..] == rest;
        ExpandedStart(s[1..]);
        assert |t| >= 2 ==> t[..2] != CRLF;
        assert |t| < 2 ==> rest == "";
      }
    }
  }

  /** An expanded string does not start with a line feed. */
  lemma ExpandedStart(s: string)
    ensures var t := ReplaceAll(s, LF, CRLF); t == "" || t[0] != '\n'
  {
    if s != "" {
      assert s[..1] == [s[0]];
    }
  }

  /** Both passes together repair bare line feeds and do nothing else. */
  lemma {:induction false} NormaliseRepairs(s: string)
    ensures Normalise(s) == Repaired(s, false)
    decreases |s|
  {
    if s == "" {
    } else if |s| >= 2 && s[..2] == CRLF {
      NormaliseRepairs(s[2..]);
      CollapsedLineFeed(s, s[2..]);
      assert s[0] == '\r' && s[1] == '\n' && s[1..][1..] == s[2..];
    } else {
      NormaliseRepairs(s[1..]);
      if s[0] == '\n' {
        CollapsedLineFeed(s, s[1..]);
      } else {
        var t := ReplaceAll(s, CRLF, LF);
        assert t == [s[0]] + ReplaceAll(s[1..], CRLF, LF);
        assert t[..1] != LF && t[1..] == ReplaceAll(s[1..], CRLF, LF);
        if s[0] == '\r' && |s| >= 2 {
          assert s[..2] == [s[0], s[1]];
        }
        assert Repaired(s[1..], s[0] == '\r') == Repaired(s[1..], false);
      }
    }
  }

  lemma CollapsedLineFeed(s: string, rest: string)
    requires ReplaceAll(s, CRLF, LF) == LF + ReplaceAll(rest, CRLF, LF)
    ensures Normalise(s) == CRLF + Normalise(rest)
  {
    var t := ReplaceAll(s, CRLF, LF);
    assert t[..1] == LF && t[1..] == ReplaceAll(rest, CRLF, LF);
  }

  lemma NormaliseIdempotent(s: string)
    ensures Normalise(Normalise(s)) == Normalise(s)
  {
    CollapseUndoesExpand(ReplaceAll(s, CRLF, LF));
  }

  predicate Clean(s: string, afterCR: bool) {
    forall i {:trigger s[i]} :: 0 <= i < |s| && s[i] == '\n' ==> if i == 0 then afterCR else s[i - 1] == '\r'
  }

  lemma {:induction false} RepairedFacts(s: string, afterCR: bool)
    ensures LineFeeds(Repaired(s, afterCR)) == LineFeeds(s)
    ensures Clean(Repaired(s, afterCR), afterCR)
    ensures Repaired(s, afterCR) == s <==> Clean(s, afterCR)
  {
    if s != "" {
      var rest := Repaired(s[1..], s[0] == '\r');
      RepairedFacts(s[1..], s[0] == '\r');
      assert s == [s[0]] + s[1..];
      assert forall i :: 0 <= i < |s[1..]| ==> s[1..][i] == s[i + 1];
      if s[0] == '\n' && !afterCR {
        assert Repaired(s, afterCR) == CRLF + rest;
        assert (CRLF + rest)[1..] == LF + rest && (LF + rest)[1..] == rest;
        assert Repaired(s, afterCR)[0] != s[0];
      } else {
        var t := [s[0]] + rest;
        assert Repaired(s, afterCR) == t && t[1..] == rest;
        assert t == s <==> rest == s[1..];
        assert forall i :: 0 < i < |t| ==> t[i] == rest[i - 1];
        assert forall i :: 0 < i < |s| ==> s[i] == s[1..][i - 1];
      }
    }
  }

  /** No line feed is lost or added, none is left bare, and a text without bare line feeds is
      left as it is. */
  lemma NormaliseFacts(s: string)
    ensures LineFeeds(Normalise(s)) == LineFeeds(s)
    ensures forall i :: 0 <= i < |Normalise(s)| ==> !BareAt(Normalise(s), i)
    ensures Normalise(s) == s <==> forall i :: 0 <= i < |s| ==> !BareAt(s, i)
  {
    NormaliseRepairs(s);
    RepairedFacts(s, false);
    if Normalise(s) == s {
      assert forall i :: 0 <= i < |s| ==> !BareAt(s, i);
    } else {
      var i :| 0 <= i < |s| && s[i] == '\n' && !(if i == 0 then false else s[i - 1] == '\r');
      assert BareAt(s, i);
    }
  }
}
