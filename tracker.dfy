/** The tracking page: the Track button checks the typed ID (trimmed, then
    required, then of the form SW + nine digits + IN) and either raises an
    alert or shows the result panel; the chatbot can fill the ID in and
    press the button. */
module Tracker {
  import opened Wrappers
  import opened TextUtil
  import opened Intents

  const EmptyIdAlert: string := "Please enter a tracking ID"
  const BadFormatAlert: string := "Please enter a valid tracking ID (e.g. SW123456789IN)"

  datatype TrackCheck = EmptyId | BadFormat | Accepted

  /** The Track button's checks, in order: an ID that is empty after
      trimming is refused before the format is looked at; otherwise the whole
      trimmed ID must match ^SW\d{9}IN$. */
  function CheckTrackingId(raw: string): (r: TrackCheck)
    ensures r == EmptyId <==> AllSpace(raw)
    ensures r == Accepted <==> SwToken(Trim(raw))
    ensures r == BadFormat <==> !AllSpace(raw) && !SwToken(Trim(raw))
  {
    TrimEmptyIff(raw);
    var id := Trim(raw);
    if id == "" then EmptyId
    else if !SwToken(id) then BadFormat
    else Accepted
  }

  /** An accepted ID is exactly thirteen characters once trimmed. */
  lemma AcceptedIdLength(raw: string)
    requires CheckTrackingId(raw) == Accepted
    ensures |Trim(raw)| == 13
  {
  }

  /** White space around an ID, however much and of whatever kind, does not
      change the verdict. */
  lemma CheckIgnoresSurroundingSpace(before: string, raw: string, after: string)
    requires AllSpace(before) && AllSpace(after)
    ensures CheckTrackingId(before + raw + after) == CheckTrackingId(raw)
  {
    var padded := before + raw + after;
    TrimEmptyIff(raw);
    TrimEmptyIff(padded);
    PaddedTrim(before, raw, after);
  }

  /** Trimming removes any white space added on either side. */
  lemma PaddedTrim(before: string, raw: string, after: string)
    requires AllSpace(before) && AllSpace(after)
    ensures Trim(before + raw + after) == Trim(raw)
  {
    assert before + raw + after == before + (raw + after);
    TrimStartSpacePrefix(before, raw + after);
    if AllSpace(raw) {
      TrimStartAllSpace(raw, after);
      TrimStartAllSpace2(raw);
    } else {
      TrimStartAppend(raw, after);
      TrimEndSpaceSuffix(TrimStart(raw), after);
    }
  }

  /** Leading white space is dropped whatever follows it. */
  lemma {:induction false} TrimStartSpacePrefix(space: string, s: string)
    requires AllSpace(space)
    ensures TrimStart(space + s) == TrimStart(s)
  {
    if |space| > 0 {
      assert (space + s)[1..] == space[1..] + s;
      TrimStartSpacePrefix(space[1..], s);
    } else {
      assert space + s == s;
    }
  }

  /** Trailing white space is dropped whatever precedes it. */
  lemma {:induction false} TrimEndSpaceSuffix(s: string, space: string)
    requires AllSpace(space)
    ensures TrimEnd(s + space) == TrimEnd(s)
    decreases |space|
  {
    if |space| > 0 {
      var shorter := space[..|space| - 1];
      assert (s + space)[..|s + space| - 1] == s + shorter;
      TrimEndSpaceSuffix(s, shorter);
    } else {
      assert s + space == s;
    }
  }

  /** Leading-space removal does not reach past a non-space character. */
  lemma {:induction false} TrimStartAppend(s: string, tail: string)
    requires !AllSpace(s)
    ensures TrimStart(s + tail) == TrimStart(s) + tail
  {
    assert (s + tail)[0] == s[0];
    if IsSpace(s[0]) {
      assert (s + tail)[1..] == s[1..] + tail;
      assert !AllSpace(s[1..]) by {
        var k :| 0 <= k < |s| && !IsSpace(s[k]);
        assert s[1..][k - 1] == s[k];
      }
      TrimStartAppend(s[1..], tail);
    }
  }

  /** White space followed by white space trims to nothing. */
  lemma {:induction false} TrimStartAllSpace(s: string, tail: string)
    requires AllSpace(s) && AllSpace(tail)
    ensures TrimStart(s + tail) == ""
  {
    if |s| > 0 {
      assert (s + tail)[1..] == s[1..] + tail;
      TrimStartAllSpace(s[1..], tail);
    } else {
      assert s + tail == tail;
      TrimStartAllSpace2(tail);
    }
  }

  lemma {:induction false} TrimStartAllSpace2(s: string)
    requires AllSpace(s)
    ensures TrimStart(s) == ""
  {
    if |s| > 0 {
      TrimStartAllSpace2(s[1..]);
    }
  }

  /** An ID the page accepts is one the chat assistant also recognises: alone,
      or after "track ", the extractor returns it unchanged. */
  lemma AcceptedIdIsRecognisedInChat(raw: string)
    requires CheckTrackingId(raw) == Accepted
    ensures ExtractTrackingNumber(Trim(raw)) == Some(Trim(raw))
    ensures ExtractTrackingNumber("track " + Trim(raw)) == Some(Trim(raw))
  {
    var id := Trim(raw);
    SwTokenIsGeneric(id);
    assert id[0..13] == id;
    ExtractAfterLowerPrefix(id, 0, 13);
    var m := "track " + id;
    assert m[6..19] == id;
    assert forall k :: 0 <= k < 6 ==> !IsUpper(m[k]);
    ExtractAfterLowerPrefix(m, 6, 13);
  }

  /** The page: the ID field, the result panel and the alerts raised. */
  class TrackingPage {
    /** Whether the ID field is on the page. */
    const inputPresent: bool
    const buttonPresent: bool
    const resultPresent: bool
    var trackingId: string
    var resultShown: bool
    var alerts: seq<string>

    /** Whether the button, the field and the result panel are all on the
        page; only then are the click and key handlers installed. */
    predicate FormPresent() {
      inputPresent && buttonPresent && resultPresent
    }

    constructor (inputPresent: bool, buttonPresent: bool, resultPresent: bool)
      ensures this.inputPresent == inputPresent && this.buttonPresent == buttonPresent
      ensures this.resultPresent == resultPresent
      ensures trackingId == "" && !resultShown && alerts == []
    {
      this.inputPresent := inputPresent;
      this.buttonPresent := buttonPresent;
      this.resultPresent := resultPresent;
      trackingId := "";
      resultShown := false;
      alerts := [];
    }

    /** A click on Track: one alert for a refused ID, otherwise the result
        panel is shown; the field is not changed.  Without the full form no
        handler is installed and a click does nothing. */
    method ClickTrack()
      modifies this
      ensures trackingId == old(trackingId)
      ensures !FormPresent() ==> resultShown == old(resultShown) && alerts == old(alerts)
      ensures FormPresent() ==>
        match CheckTrackingId(old(trackingId))
        case EmptyId => alerts == old(alerts) + [EmptyIdAlert] && resultShown == old(resultShown)
        case BadFormat => alerts == old(alerts) + [BadFormatAlert] && resultShown == old(resultShown)
        case Accepted => alerts == old(alerts) && resultShown
    {
      if !FormPresent() {
        return;
      }
      var id := Trim(trackingId);
      TrimEmptyIff(trackingId);
      if id == "" {
        alerts := alerts + [EmptyIdAlert];
        return;
      }
      if !SwToken(id) {
        alerts := alerts + [BadFormatAlert];
        return;
      }
      resultShown := true;
    }

    /** Enter in the field presses the button, with the same checks and
        alerts as a click; other keys do nothing. */
    method KeyPress(key: string)
      modifies this
      ensures trackingId == old(trackingId)
      ensures key != "Enter" || !FormPresent() ==> resultShown == old(resultShown) && alerts == old(alerts)
      ensures key == "Enter" && FormPresent() ==>
        match CheckTrackingId(old(trackingId))
        case EmptyId => alerts == old(alerts) + [EmptyIdAlert] && resultShown == old(resultShown)
        case BadFormat => alerts == old(alerts) + [BadFormatAlert] && resultShown == old(resultShown)
        case Accepted => alerts == old(alerts) && resultShown
    {
      if key == "Enter" {
        ClickTrack();
      }
    }

    /** trackShipmentFromChat: when the field is on the page the ID is written
        into it and the button is pressed, so the ID is checked exactly as a
        click would check it; a page without the full form runs no check. */
    method TrackShipmentFromChat(id: string)
      modifies this
      ensures inputPresent ==> trackingId == id
      ensures !inputPresent ==> trackingId == old(trackingId)
      ensures !FormPresent() ==> resultShown == old(resultShown) && alerts == old(alerts)
      ensures FormPresent() ==>
        match CheckTrackingId(id)
        case EmptyId => alerts == old(alerts) + [EmptyIdAlert] && resultShown == old(resultShown)
        case BadFormat => alerts == old(alerts) + [BadFormatAlert] && resultShown == old(resultShown)
        case Accepted => alerts == old(alerts) && resultShown
    {
      if inputPresent {
        trackingId := id;
        ClickTrack();
      }
    }

    /** The chatbot-track-request listener: an event without a tracking ID
        (missing or empty) is ignored; otherwise the ID is tracked as by
        trackShipmentFromChat. */
    method OnChatbotTrackRequest(trackingIdDetail: Option<string>)
      modifies this
      ensures trackingIdDetail.None? || trackingIdDetail.value == "" ==>
        trackingId == old(trackingId) && resultShown == old(resultShown) && alerts == old(alerts)
      ensures trackingIdDetail.Some? && trackingIdDetail.value != "" ==>
        trackingId == (if inputPresent then trackingIdDetail.value else old(trackingId))
      ensures trackingIdDetail.Some? && trackingIdDetail.value != "" && !FormPresent() ==>
        resultShown == old(resultShown) && alerts == old(alerts)
      ensures trackingIdDetail.Some? && trackingIdDetail.value != "" && FormPresent() ==>
        match CheckTrackingId(trackingIdDetail.value)
        case EmptyId => alerts == old(alerts) + [EmptyIdAlert] && resultShown == old(resultShown)
        case BadFormat => alerts == old(alerts) + [BadFormatAlert] && resultShown == old(resultShown)
        case Accepted => alerts == old(alerts) && resultShown
    {
      if trackingIdDetail.Some? && trackingIdDetail.value != "" {
        TrackShipmentFromChat(trackingIdDetail.value);
      }
    }
  }
}
