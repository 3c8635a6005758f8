/** Id tokens of the tmux control protocol: `$<n>` names a session, `@<n>` a
    window, `%<n>` a pane, and `<sigil>*` stands for "unknown / all". */
module TmuxIds {
  import opened Codepoints
  import opened Decimal

  /** What `parseTmuxId` returns together with what it stores through `ok`. */
  datatype IdParse = IdParse(value: int, ok: bool)

  /** `parseTmuxId<C>` as every caller uses it (always with an `ok` pointer). */
  function ParseTmuxId(sigil: Codepoint, buf: seq<Codepoint>): IdParse
  {
    if |buf| == 2 && buf[0] == sigil && buf[1] == STAR then IdParse(-1, true)
    else if |buf| >= 2 && buf[0] == sigil then
      var conv := ToInt(buf[1..]);
      IdParse(conv.value, conv.ok)
    else IdParse(-2, false)
  }

  /** The three outcomes of `parseTmuxId`: `-1` exactly for `<sigil>*`, the
      integer conversion of the rest for any other token of two or more code
      units that starts with the sigil, and the sentinel `-2` with `ok == false`
      for everything else. */
  lemma ParseTmuxIdCases(sigil: Codepoint, buf: seq<Codepoint>)
    ensures ParseTmuxId(sigil, buf) == IdParse(-1, true) <==> buf == [sigil, STAR]
    ensures buf != [sigil, STAR] && |buf| >= 2 && buf[0] == sigil ==>
              ParseTmuxId(sigil, buf) == IdParse(ToInt(buf[1..]).value, ToInt(buf[1..]).ok)
    ensures ParseTmuxId(sigil, buf).value == -2 <==> |buf| < 2 || buf[0] != sigil
    ensures ParseTmuxId(sigil, buf).value == -2 ==> !ParseTmuxId(sigil, buf).ok
    ensures ParseTmuxId(sigil, buf).ok ==> -1 <= ParseTmuxId(sigil, buf).value <= INT_MAX
  {
    if buf == [sigil, STAR] {
      assert |buf| == 2 && buf[0] == sigil && buf[1] == STAR;
    }
  }

  /** How tmux writes an id: `<sigil>*` for -1, otherwise the sigil and the decimal digits. */
  function FormatTmuxId(sigil: Codepoint, id: int): (r: seq<Codepoint>)
    requires id >= -1
    ensures |r| >= 2 && r[0] == sigil
  {
    if id == -1 then [sigil, STAR] else [sigil] + FormatDecimal(id)
  }

  /** An id is a single token. */
  lemma FormattedIdNoSpace(sigil: Codepoint, id: int)
    requires id >= -1 && sigil != SPACE
    ensures NoSpace(FormatTmuxId(sigil, id))
  {
    var t := FormatTmuxId(sigil, id);
    if id != -1 {
      assert t == [sigil] + FormatDecimal(id);
      forall i | 0 <= i < |t| ensures t[i] != SPACE {
        if i > 0 { assert t[i] == FormatDecimal(id)[i - 1]; }
      }
    }
  }

  /** Every id tmux can write is read back as itself. */
  lemma ParseFormatTmuxId(sigil: Codepoint, id: int)
    requires -1 <= id <= INT_MAX
    ensures ParseTmuxId(sigil, FormatTmuxId(sigil, id)) == IdParse(id, true)
  {
    if id != -1 {
      var buf := FormatTmuxId(sigil, id);
      assert buf[1..] == FormatDecimal(id);
      var digits := FormatDecimal(id);
      assert digits[0] != STAR;
      assert buf[1] == digits[0];
    }
  }

  /** `parseTmuxSessionId`: a session id is a `$` token. */
  function ParseTmuxSessionId(buf: seq<Codepoint>): (r: IdParse)
    ensures r.ok ==> |buf| >= 2 && buf[0] == DOLLAR
    ensures r == IdParse(-1, true) <==> buf == [DOLLAR, STAR]
  {
    ParseTmuxIdCases(DOLLAR, buf);
    ParseTmuxId(DOLLAR, buf)
  }

  /** `parseTmuxWindowId`: a window id is an `@` token. */
  function ParseTmuxWindowId(buf: seq<Codepoint>): (r: IdParse)
    ensures r.ok ==> |buf| >= 2 && buf[0] == AT
    ensures r == IdParse(-1, true) <==> buf == [AT, STAR]
  {
    ParseTmuxIdCases(AT, buf);
    ParseTmuxId(AT, buf)
  }

  /** `parseTmuxPaneId`: a pane id is a `%` token. */
  function ParseTmuxPaneId(buf: seq<Codepoint>): (r: IdParse)
    ensures r.ok ==> |buf| >= 2 && buf[0] == PERCENT
    ensures r == IdParse(-1, true) <==> buf == [PERCENT, STAR]
  {
    ParseTmuxIdCases(PERCENT, buf);
    ParseTmuxId(PERCENT, buf)
  }
}
