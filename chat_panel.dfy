/** The side panel of a women-safety room chat: the `mm:ss` timer text, the
    send box, and the panel theme and watermark chosen from the room's safety
    score and SOS state. */
module ChatPanel {
  import opened Strings

  // ---------------------------------------------------------------- timer text

  /** `padStart(2, '0')`: one leading zero for a single character, longer text unchanged. */
  function Pad2(s: string): (r: string)
    ensures |s| >= 2 ==> r == s
    ensures |s| < 2 ==> |r| == 2 && r[2 - |s|..] == s
  {
    if |s| == 0 then "00" else if |s| == 1 then "0" + s else s
  }

  /** `formatTime`: whole minutes and remaining seconds, each padded to two digits. */
  function FormatTime(seconds: nat): (r: string)
    ensures seconds >= 6000 ==> |r| >= 6
  {
    Pad2(NatToString(seconds / 60)) + ":" + Pad2(NatToString(seconds % 60))
  }

  /** A number below 100 pads to exactly two digits that read back as the number. */
  lemma PadTwoDigits(n: nat)
    requires n < 100
    ensures var p := Pad2(NatToString(n));
      |p| == 2 && IsDigit(p[0]) && IsDigit(p[1]) && ParseDigits(p) == n
  {
    var p := Pad2(NatToString(n));
    if n < 10 {
      assert p == ['0', DigitChar(n)];
      assert p[..1] == ['0'];
      assert ParseDigits(p[..1]) == 0 by {
        assert p[..1][..0] == [];
      }
    } else {
      assert p == NatToString(n);
      ParseNatToString(n);
    }
  }

  /** Below 100 minutes the text is five characters `mm:ss` that read back as the
      original number of seconds. */
  lemma FormatTimeRoundTrip(seconds: nat)
    requires seconds < 6000
    ensures var r := FormatTime(seconds);
      && |r| == 5 && r[2] == ':'
      && (forall k :: 0 <= k < 5 && k != 2 ==> IsDigit(r[k]))
      && ParseDigits(r[..2]) == seconds / 60
      && ParseDigits(r[3..]) == seconds % 60
      && ParseDigits(r[..2]) * 60 + ParseDigits(r[3..]) == seconds
  {
    var r := FormatTime(seconds);
    var mm := Pad2(NatToString(seconds / 60));
    var ss := Pad2(NatToString(seconds % 60));
    PadTwoDigits(seconds / 60);
    PadTwoDigits(seconds % 60);
    assert r == mm + ":" + ss;
    assert r[..2] == mm;
    assert r[3..] == ss;
  }

  // ---------------------------------------------------------------- send box

  /** The characters `String.prototype.trim` removes: white space and line terminators. */
  predicate IsJsWhitespace(c: char) {
    || c == '\t' || c == '\n' || c == '\U{B}' || c == '\U{C}' || c == '\r' || c == ' '
    || c == '\U{A0}' || c == '\U{1680}' || ('\U{2000}' <= c <= '\U{200A}')
    || c == '\U{2028}' || c == '\U{2029}' || c == '\U{202F}' || c == '\U{205F}'
    || c == '\U{3000}' || c == '\U{FEFF}'
  }

  /** `!text.trim()`: nothing but white space is left. */
  predicate Blank(s: string) {
    forall k :: 0 <= k < |s| ==> IsJsWhitespace(s[k])
  }

  /** The send box: the draft in the input, and the messages handed to the room. */
  class SendBox {
    var draft: string
    var sent: seq<string>

    constructor()
      ensures draft == "" && sent == []
    {
      draft := "";
      sent := [];
    }

    method Type(text: string)
      modifies this
      ensures draft == text && sent == old(sent)
    {
      draft := text;
    }

    /** `handleSend`: a blank draft is neither sent nor cleared; any other draft
        is sent once, untrimmed, and the input is cleared. */
    method HandleSend()
      modifies this
      ensures Blank(old(draft)) ==> draft == old(draft) && sent == old(sent)
      ensures !Blank(old(draft)) ==> sent == old(sent) + [old(draft)] && draft == ""
    {
      if Blank(draft) {
        return;
      }
      sent := sent + [draft];
      draft := "";
    }
  }

  // ---------------------------------------------------------------- theme and watermark

  /** `finalScore` as received: null, undefined (reads as NaN) or a number. */
  datatype FinalScore = NullScore | Undefined | Value(x: real)

  /** `Number(finalScore) < bound`; NaN is below nothing. */
  predicate Below(score: FinalScore, bound: real) {
    match score
    case NullScore => 0.0 < bound
    case Undefined => false
    case Value(x) => x < bound
  }

  datatype Theme = Neutral | RedTheme | AmberTheme | GreenTheme

  /** `getPanelTheme`. */
  function PanelTheme(score: FinalScore, sosDisabled: bool, sosTriggerCount: int): (t: Theme)
    ensures t == Neutral <==> score == NullScore
    ensures t == RedTheme <==> score != NullScore && (sosDisabled || sosTriggerCount > 0 || Below(score, 4.0))
    ensures t == AmberTheme <==>
      score != NullScore && !sosDisabled && sosTriggerCount <= 0 && !Below(score, 4.0) && Below(score, 7.0)
  {
    if score == NullScore then Neutral
    else if sosDisabled || sosTriggerCount > 0 || Below(score, 4.0) then RedTheme
    else if Below(score, 7.0) then AmberTheme
    else GreenTheme
  }

  datatype Watermark = HighAlert | CriticalDanger | Surveillance | NoWatermark

  /** `getWatermark`: an SOS wins over the score tiers; a null score has no tier. */
  function WatermarkOf(score: FinalScore, sosDisabled: bool, sosTriggerCount: int): (w: Watermark)
    ensures w == HighAlert <==> sosTriggerCount > 0 || sosDisabled
    ensures w == CriticalDanger <==>
      !(sosTriggerCount > 0 || sosDisabled) && score != NullScore && Below(score, 4.0)
    ensures w == Surveillance <==>
      !(sosTriggerCount > 0 || sosDisabled) && score != NullScore && !Below(score, 4.0) && Below(score, 7.0)
    ensures w == NoWatermark <==>
      !(sosTriggerCount > 0 || sosDisabled) && (score == NullScore || !Below(score, 7.0))
  {
    if sosTriggerCount > 0 || sosDisabled then HighAlert
    else if score != NullScore && Below(score, 4.0) then CriticalDanger
    else if score != NullScore && Below(score, 7.0) then Surveillance
    else NoWatermark
  }

  /** Theme and watermark agree tier for tier whenever the score is not null;
      with a null score the panel stays neutral even when an SOS has fired. */
  lemma ThemeMatchesWatermark(score: FinalScore, sosDisabled: bool, sosTriggerCount: int)
    ensures var t := PanelTheme(score, sosDisabled, sosTriggerCount);
      var w := WatermarkOf(score, sosDisabled, sosTriggerCount);
      && (score != NullScore ==>
            && (t == RedTheme <==> w == HighAlert || w == CriticalDanger)
            && (t == AmberTheme <==> w == Surveillance)
            && (t == GreenTheme <==> w == NoWatermark))
      && (score == NullScore ==> t == Neutral && (w == HighAlert || w == NoWatermark))
  {
  }
}
