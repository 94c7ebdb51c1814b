/** The byte and string helpers of app/lib/utils.ts. */
module Utils {
  import opened Wrappers
  import opened JsString

  newtype byte = x: int | 0 <= x < 256

  /** The contents of an `ArrayBuffer`. */
  type Bytes = seq<byte>

  /** Length of the canonical RIFF/WAVE header (the WAVE form of the Microsoft/IBM
      Multimedia Programming Interface and Data Specifications 1.0, chapter 3). */
  const HEADER_LENGTH := 44

  /** The sender recorded for tab-audio transcripts. */
  const TAB_TRANSCRIPTION_ID := "9999998"

  // ---------------------------------------------------------------------------
  // concatArrayBuffers

  /** The bytes of one entry of the argument list; a `null` entry contributes nothing. */
  function Piece(view: Option<Bytes>): Bytes
  {
    if view.Some? then view.value else []
  }

  /** Specification of `concatArrayBuffers`: the bytes of the non-null views, in order. */
  function Flatten(views: seq<Option<Bytes>>): Bytes
  {
    if views == [] then [] else Piece(views[0]) + Flatten(views[1..])
  }

  /** Specification of the first loop: the summed length of the non-null views. */
  function TotalLength(views: seq<Option<Bytes>>): nat
  {
    if views == [] then 0 else |Piece(views[0])| + TotalLength(views[1..])
  }

  lemma {:induction false} FlattenAppend(a: seq<Option<Bytes>>, b: seq<Option<Bytes>>)
    ensures Flatten(a + b) == Flatten(a) + Flatten(b)
    ensures TotalLength(a + b) == TotalLength(a) + TotalLength(b)
  {
    if a == [] {
      assert a + b == b;
    } else {
      assert (a + b)[1..] == a[1..] + b;
      FlattenAppend(a[1..], b);
    }
  }

  /** The concatenation is exactly as long as the summed lengths of the non-null views. */
  lemma {:induction false} FlattenLength(views: seq<Option<Bytes>>)
    ensures |Flatten(views)| == TotalLength(views)
  {
    if views != [] {
      FlattenLength(views[1..]);
    }
  }

  /** `null` entries are skipped: dropping them does not change the concatenation. */
  lemma {:induction false} FlattenSkipsNull(views: seq<Option<Bytes>>, i: nat)
    requires i < |views| && views[i].None?
    ensures Flatten(views) == Flatten(views[..i] + views[i + 1..])
  {
    assert views == views[..i] + [views[i]] + views[i + 1..];
    FlattenAppend(views[..i] + [views[i]], views[i + 1..]);
    FlattenAppend(views[..i], [views[i]]);
    FlattenAppend(views[..i], views[i + 1..]);
  }

  /** Position `k` of the output is byte `k - |Flatten(views[..i])|` of view `i`. */
  lemma FlattenAt(views: seq<Option<Bytes>>, i: nat, k: nat)
    requires i < |views| && views[i].Some?
    requires |Flatten(views[..i])| <= k < |Flatten(views[..i])| + |views[i].value|
    ensures k < |Flatten(views)|
    ensures Flatten(views)[k] == views[i].value[k - |Flatten(views[..i])|]
  {
    assert views == views[..i] + ([views[i]] + views[i + 1..]);
    FlattenAppend(views[..i], [views[i]] + views[i + 1..]);
  }

  /** Extending a prefix of the views by one entry extends the concatenation by that entry's bytes. */
  lemma FlattenPrefix(views: seq<Option<Bytes>>, i: nat)
    requires i < |views|
    ensures Flatten(views[..i + 1]) == Flatten(views[..i]) + Piece(views[i])
    ensures TotalLength(views[..i + 1]) == TotalLength(views[..i]) + |Piece(views[i])|
    ensures |Flatten(views[..i + 1])| <= |Flatten(views)|
  {
    assert views[..i + 1] == views[..i] + [views[i]];
    FlattenAppend(views[..i], [views[i]]);
    assert views == views[..i + 1] + views[i + 1..];
    FlattenAppend(views[..i + 1], views[i + 1..]);
  }

  /** `target.set(source, offset)` on a `Uint8Array`: copies `source` into
      `target` starting at `offset`, leaving the other positions alone. */
  method Set(target: array<byte>, source: Bytes, offset: nat)
    requires offset + |source| <= target.Length
    modifies target
    ensures target[..offset] == old(target[..offset])
    ensures target[..offset + |source|] == old(target[..offset]) + source
    ensures target[offset + |source|..] == old(target[offset + |source|..])
  {
    forall k | 0 <= k < |source| {
      target[offset + k] := source[k];
    }
    assert target[..offset + |source|] == target[..offset] + target[offset..offset + |source|];
  }

  /** `concatArrayBuffers(views)`: totals the non-null lengths, then copies each
      non-null view into a fresh `Uint8Array` at a running offset. */
  method ConcatArrayBuffers(views: seq<Option<Bytes>>) returns (r: Bytes)
    ensures |r| == TotalLength(views)
    ensures r == Flatten(views)
  {
    var totalLength := 0;
    for i := 0 to |views|
      invariant totalLength == TotalLength(views[..i])
    {
      FlattenPrefix(views, i);
      if views[i].None? {
        continue;
      }
      totalLength := totalLength + |views[i].value|;
    }
    assert views[..|views|] == views;
    FlattenLength(views);

    var concatenated := new byte[totalLength];
    var offset := 0;
    for i := 0 to |views|
      invariant offset == |Flatten(views[..i])| <= concatenated.Length
      invariant concatenated[..offset] == Flatten(views[..i])
    {
      FlattenPrefix(views, i);
      if views[i].None? {
        continue;
      }
      var view := views[i].value;
      Set(concatenated, view, offset);
      offset := offset + |view|;
    }
    assert views[..|views|] == views;
    r := concatenated[..];
  }

  // ---------------------------------------------------------------------------
  // extractWavHeader

  datatype HeaderError = TooShortForHeader

  /** `extractWavHeader(buffer)`: the first 44 bytes, or the "too short" error. */
  function ExtractWavHeader(buffer: Bytes): (r: Result<Bytes, HeaderError>)
    ensures r.Ok? <==> |buffer| >= HEADER_LENGTH
    ensures r.Ok? ==> |r.value| == HEADER_LENGTH && r.value <= buffer
  {
    if |buffer| < HEADER_LENGTH then Err(TooShortForHeader) else Ok(buffer[..HEADER_LENGTH])
  }

  /** A header is its own header. */
  lemma ExtractWavHeaderIdempotent(buffer: Bytes)
    requires ExtractWavHeader(buffer).Ok?
    ensures ExtractWavHeader(ExtractWavHeader(buffer).value) == ExtractWavHeader(buffer)
  {
    assert buffer[..HEADER_LENGTH][..HEADER_LENGTH] == buffer[..HEADER_LENGTH];
  }

  // ---------------------------------------------------------------------------
  // String helpers

  /** The lookup inside `getCookie`: splits `text` on `marker` and, when that gives
      exactly two pieces, returns the second piece up to its first `;`. */
  function CookieLookup(text: string, marker: string): (r: Option<string>)
    requires marker != []
    ensures r.Some? <==> IndexOf(text, marker).Some? &&
                         IndexOf(text[IndexOf(text, marker).value + |marker|..], marker).None?
    ensures r.Some? ==>
              var after := text[IndexOf(text, marker).value + |marker|..];
              && r.value <= after
              && ';' !in r.value
              && (|r.value| < |after| ==> after[|r.value|] == ';')
  {
    var parts := Split(text, marker);
    SplitInTwo(text, marker);
    if |parts| == 2 then
      FirstPiece(parts[1], ';');
      Some(Split(parts[1], [';'])[0])
    else
      None
  }

  /** `getCookie(name)` over the text of `document.cookie`: the value is present
      exactly when `"; " + name + "="` occurs once in `"; " + cookie`, and it is
      what follows that occurrence up to the next `;`. */
  function GetCookie(cookie: string, name: string): (r: Option<string>)
    ensures var text := "; " + cookie;
            var marker := "; " + name + "=";
            r.Some? <==> IndexOf(text, marker).Some? &&
                         IndexOf(text[IndexOf(text, marker).value + |marker|..], marker).None?
    ensures var text := "; " + cookie;
            var marker := "; " + name + "=";
            r.Some? ==>
              var after := text[IndexOf(text, marker).value + |marker|..];
              && r.value <= after
              && ';' !in r.value
              && (|r.value| < |after| ==> after[|r.value|] == ';')
  {
    CookieLookup("; " + cookie, "; " + name + "=")
  }

  /** `getSystemStatusMessage`. */
  function GetSystemStatusMessage(isHealthy: bool): (r: string)
    ensures r == "System is healthy" <==> isHealthy
    ensures !isHealthy ==> r == "Please check the app settings"
  {
    if isHealthy then "System is healthy" else "Please check the app settings"
  }

  /** `getMeetingLinkForScreenType`: both branches of the source build the same path. */
  function GetMeetingLinkForScreenType(meetingId: string, isMobile: bool): (r: string)
    ensures r == "/app/meetings/" + meetingId
  {
    if isMobile then "/app/meetings/" + meetingId else "/app/meetings/" + meetingId
  }
}
