/**
 * Static inspection of one demuxed H.264 sample (Annex B byte stream): is it the start of a
 * closed group of pictures, and how many frames does it hold?
 *
 * The Annex B splitter and the SPS bit decoder belong to a foreign library. The splitter is a
 * parameter that maps the bytes pushed into it to the NAL deliveries it makes to the handler.
 * The SPS decoder, together with the SPS-to-details mapping, is a parameter that returns the
 * details or the debug text of its error.
 */
module FrameInspection {
  import opened Common

  // ---------------------------------------------------------------------------------------------
  // Public types
  // ---------------------------------------------------------------------------------------------

  datatype VideoCodec = H264 | H265 | AV1 | VP8 | VP9

  datatype ChromaSubsamplingMode = Monochrome | Yuv420 | Yuv422 | Yuv444

  /** What the SPS mapper extracts; derived from an SPS, never built by the inspector itself. */
  datatype VideoEncodingDetails = VideoEncodingDetails(
    codecString: string,
    codedDimensions: (nat, nat),
    bitDepth: Option<nat>,
    chromaSubsampling: Option<ChromaSubsamplingMode>)

  datatype VideoChunkInspectionError =
    | UnsupportedCodec(codec: VideoCodec)
    | NalHeaderError
    | FailedToExtractEncodingDetails(message: string)

  datatype GopStartDetection = StartOfGop(details: VideoEncodingDetails) | NotStartOfGop

  datatype VideoChunkInspection = VideoChunkInspection(
    gopDetection: GopStartDetection,
    numFramesDetected: Option<nat>)

  type InspectionResult = Result<VideoChunkInspection, VideoChunkInspectionError>

  // ---------------------------------------------------------------------------------------------
  // NAL units: header layout of section 7.3.1 and the unit types of Table 7-1 of ITU-T H.264
  // ---------------------------------------------------------------------------------------------

  datatype UnitType =
    | SeqParameterSet                      // nal_unit_type 7
    | SliceLayerWithoutPartitioningIdr     // nal_unit_type 5
    | SliceLayerWithoutPartitioningNonIdr  // nal_unit_type 1
    | OtherUnitType(id: nat)

  function UnitTypeOf(id: nat): UnitType
  {
    if id == 7 then SeqParameterSet
    else if id == 5 then SliceLayerWithoutPartitioningIdr
    else if id == 1 then SliceLayerWithoutPartitioningNonIdr
    else OtherUnitType(id)
  }

  datatype NalHeaderProblem = ForbiddenZeroBit

  /** The first byte of a NAL unit: forbidden_zero_bit (1 bit), nal_ref_idc (2), nal_unit_type (5). */
  datatype NalHeader = NalHeader(value: byte)

  /** A header parses unless its forbidden_zero_bit is set. */
  function ParseNalHeader(b: byte): (r: Result<NalHeader, NalHeaderProblem>)
    ensures r.Ok? <==> b < 0x80
    ensures r.Ok? ==> r.value.value == b
  {
    if b >= 0x80 then Err(ForbiddenZeroBit) else Ok(NalHeader(b))
  }

  function NalUnitType(h: NalHeader): UnitType
  {
    UnitTypeOf(h.value as int % 32)
  }

  /**
   * One delivery of a NAL unit to the handler: its header byte, whether the splitter has seen
   * the unit's end yet, and the bytes after the header delivered so far.
   */
  datatype NalUnit = NalUnit(headerByte: byte, isComplete: bool, payload: seq<byte>)

  /** The Annex B splitter: the NAL deliveries it makes for the bytes pushed into it. */
  type Splitter = seq<byte> -> seq<NalUnit>

  /** SPS decoding followed by the SPS-to-details mapping; `Err` holds the error's debug text. */
  type SpsDecoder = seq<byte> -> Result<VideoEncodingDetails, string>

  predicate IsOfType(nal: NalUnit, t: UnitType)
  {
    var h := ParseNalHeader(nal.headerByte);
    h.Ok? && NalUnitType(h.value) == t
  }

  predicate IsIdrSlice(nal: NalUnit) { IsOfType(nal, SliceLayerWithoutPartitioningIdr) }

  predicate IsSlice(nal: NalUnit)
  {
    IsIdrSlice(nal) || IsOfType(nal, SliceLayerWithoutPartitioningNonIdr)
  }

  predicate IsCompleteSps(nal: NalUnit) { IsOfType(nal, SeqParameterSet) && nal.isComplete }

  predicate IsIncompleteSps(nal: NalUnit) { IsOfType(nal, SeqParameterSet) && !nal.isComplete }

  // ---------------------------------------------------------------------------------------------
  // The per-NAL accumulator
  // ---------------------------------------------------------------------------------------------

  /** What the handler tells the splitter: keep buffering this unit, or never show it again. */
  datatype NalInterest = Buffer | Ignore

  /** The three running fields of the accumulator, as a value. */
  datatype InspectionState = InspectionState(
    codingDetailsFromSps: Option<Result<VideoEncodingDetails, string>>,
    idrFrameFound: bool,
    numFramesDetected: nat)

  const DefaultState := InspectionState(None, false, 0)

  /** The stored outcome of decoding one complete SPS. */
  function SpsOutcome(decoded: Result<VideoEncodingDetails, string>): (r: Result<VideoEncodingDetails, string>)
    ensures decoded.Ok? ==> r == decoded
    ensures decoded.Err? ==> r == Err("Failed reading SPS: " + decoded.error)
  {
    match decoded
    case Ok(details) => Ok(details)
    case Err(problem) => Err("Failed reading SPS: " + problem)
  }

  /** One call of the NAL handler, as a function of the state before it. */
  function Step(s: InspectionState, nal: NalUnit, decode: SpsDecoder): (InspectionState, NalInterest)
  {
    match ParseNalHeader(nal.headerByte)
    case Err(_) => (s, Ignore)
    case Ok(header) =>
      match NalUnitType(header)
      case SeqParameterSet =>
        if !nal.isComplete then (s, Buffer)
        else (s.(codingDetailsFromSps := Some(SpsOutcome(decode(nal.payload)))), Ignore)
      case SliceLayerWithoutPartitioningIdr =>
        (s.(idrFrameFound := true, numFramesDetected := s.numFramesDetected + 1), Ignore)
      case SliceLayerWithoutPartitioningNonIdr =>
        (s.(numFramesDetected := s.numFramesDetected + 1), Ignore)
      case OtherUnitType(_) => (s, Ignore)
  }

  /** The handler folded over the deliveries, in order. */
  function FoldNals(s: InspectionState, nals: seq<NalUnit>, decode: SpsDecoder): InspectionState
    decreases |nals|
  {
    if nals == [] then s else FoldNals(Step(s, nals[0], decode).0, nals[1..], decode)
  }

  /** The handler object of the source: three fields that `Nal` updates in place. */
  class H264InspectionState {
    var codingDetailsFromSps: Option<Result<VideoEncodingDetails, string>>
    var idrFrameFound: bool
    var numFramesDetected: nat

    function State(): InspectionState
      reads this
    {
      InspectionState(codingDetailsFromSps, idrFrameFound, numFramesDetected)
    }

    /** The derived `Default`. */
    constructor ()
      ensures State() == DefaultState
    {
      codingDetailsFromSps := None;
      idrFrameFound := false;
      numFramesDetected := 0;
    }

    method Nal(nal: NalUnit, decode: SpsDecoder) returns (interest: NalInterest)
      modifies this
      ensures State() == Step(old(State()), nal, decode).0
      ensures interest == Step(old(State()), nal, decode).1
      ensures numFramesDetected >= old(numFramesDetected)
      ensures interest == Buffer ==> State() == old(State())
    {
      var header := ParseNalHeader(nal.headerByte);
      if header.Err? {
        return Ignore;
      }
      match NalUnitType(header.value) {
        case SeqParameterSet =>
          if !nal.isComplete {
            // Only a complete SPS can be decoded.
            return Buffer;
          }
          // With several SPS units, the latest one wins.
          codingDetailsFromSps := Some(SpsOutcome(decode(nal.payload)));
          interest := Ignore;
        case SliceLayerWithoutPartitioningIdr =>
          idrFrameFound := true;
          numFramesDetected := numFramesDetected + 1;
          interest := Ignore;
        case SliceLayerWithoutPartitioningNonIdr =>
          numFramesDetected := numFramesDetected + 1;
          interest := Ignore;
        case OtherUnitType(_) =>
          interest := Ignore;
      }
    }
  }

  // ---------------------------------------------------------------------------------------------
  // Reference definitions of what the fold computes
  // ---------------------------------------------------------------------------------------------

  /** The number of IDR and non-IDR slice deliveries. */
  function SliceCount(nals: seq<NalUnit>): nat
    decreases |nals|
  {
    if nals == [] then 0
    else SliceCount(nals[..|nals| - 1]) + (if IsSlice(nals[|nals| - 1]) then 1 else 0)
  }

  predicate HasIdr(nals: seq<NalUnit>)
  {
    exists i :: 0 <= i < |nals| && IsIdrSlice(nals[i])
  }

  /** The stored outcome of the last complete SPS, if there is one. */
  function LastSps(nals: seq<NalUnit>, decode: SpsDecoder): Option<Result<VideoEncodingDetails, string>>
    decreases |nals|
  {
    if nals == [] then None
    else if IsCompleteSps(nals[|nals| - 1]) then Some(SpsOutcome(decode(nals[|nals| - 1].payload)))
    else LastSps(nals[..|nals| - 1], decode)
  }

  // ---------------------------------------------------------------------------------------------
  // Result assembly
  // ---------------------------------------------------------------------------------------------

  /** The final `match` on the handler's fields. */
  function AssembleResult(h: InspectionState): InspectionResult
  {
    match h.codingDetailsFromSps
    case Some(Ok(details)) =>
      // An SPS without an IDR slice is not a usable start.
      Ok(VideoChunkInspection(if h.idrFrameFound then StartOfGop(details) else NotStartOfGop,
                              Some(h.numFramesDetected)))
    case Some(Err(message)) => Err(FailedToExtractEncodingDetails(message))
    case None => Ok(VideoChunkInspection(NotStartOfGop, Some(h.numFramesDetected)))
  }

  /** What inspecting a sample whose splitter makes the deliveries `nals` returns. */
  function InspectNalUnits(nals: seq<NalUnit>, decode: SpsDecoder): InspectionResult
  {
    AssembleResult(FoldNals(DefaultState, nals, decode))
  }

  // ---------------------------------------------------------------------------------------------
  // The window feeder and the entry points
  // ---------------------------------------------------------------------------------------------

  const MaxChunkSize: nat := 256

  function Concat(windows: seq<seq<byte>>): seq<byte>
    decreases |windows|
  {
    if windows == [] then [] else Concat(windows[..|windows| - 1]) + windows[|windows| - 1]
  }

  /** The streaming Annex B reader, holding the handler it reports to. */
  class AnnexBReader {
    const handler: H264InspectionState
    var pushed: seq<byte>
    /** The windows pushed so far, in order. */
    ghost var log: seq<seq<byte>>

    constructor Accumulate(handler: H264InspectionState)
      ensures this.handler == handler && pushed == [] && log == []
    {
      this.handler := handler;
      pushed := [];
      log := [];
    }

    method Push(data: seq<byte>)
      modifies this
      ensures pushed == old(pushed) + data
      ensures log == old(log) + [data]
    {
      pushed := pushed + data;
      log := log + [data];
    }

    /** Hands every delivery the splitter makes for the pushed bytes to the handler, in order. */
    method IntoNalHandler(split: Splitter, decode: SpsDecoder) returns (h: H264InspectionState)
      modifies handler
      ensures h == handler
      ensures h.State() == FoldNals(old(handler.State()), split(pushed), decode)
    {
      var units := split(pushed);
      for i := 0 to |units|
        invariant handler.State() == FoldNals(old(handler.State()), units[..i], decode)
      {
        FoldNalsSnoc(old(handler.State()), units[..i], units[i], decode);
        assert units[..i + 1] == units[..i] + [units[i]];
        var _ := handler.Nal(units[i], decode);
      }
      assert units[..|units|] == units;
      h := handler;
    }
  }

  /** The push loop: feeds `sampleData` to a fresh reader in windows of at most 256 bytes. */
  method PushInWindows(reader: AnnexBReader, sampleData: seq<byte>) returns (ghost windows: seq<seq<byte>>)
    requires reader.pushed == [] && reader.log == []
    modifies reader
    ensures reader.pushed == sampleData
    ensures reader.log == windows
    ensures Concat(windows) == sampleData
    ensures forall i :: 0 <= i < |windows| ==> 0 < |windows[i]| <= MaxChunkSize
    ensures forall i :: 0 <= i < |windows| - 1 ==> |windows[i]| == MaxChunkSize
  {
    var rest := sampleData;
    windows := [];
    while rest != []
      invariant reader.pushed + rest == sampleData
      invariant reader.log == windows
      invariant Concat(windows) == reader.pushed
      invariant forall i :: 0 <= i < |windows| ==> 0 < |windows[i]| <= MaxChunkSize
      invariant forall i :: 0 <= i < |windows| ==> |windows[i]| == MaxChunkSize || (i == |windows| - 1 && rest == [])
      decreases |rest|
    {
      var chunkSize := if MaxChunkSize < |rest| then MaxChunkSize else |rest|;
      var window := rest[..chunkSize];
      ghost var previous := windows;
      reader.Push(window);
      windows := windows + [window];
      assert windows[..|windows| - 1] == previous;
      assert rest == window + rest[chunkSize..];
      rest := rest[chunkSize..];
    }
  }

  /** Inspects one Annex B sample, pushing it into the reader in windows of at most 256 bytes;
      `windows` is the reader's log of those pushes. */
  method InspectH264AnnexbSample(sampleData: seq<byte>, split: Splitter, decode: SpsDecoder)
    returns (r: InspectionResult, ghost windows: seq<seq<byte>>)
    ensures r == InspectNalUnits(split(sampleData), decode)
    ensures Concat(windows) == sampleData
    ensures forall i :: 0 <= i < |windows| ==> 0 < |windows[i]| <= MaxChunkSize
    ensures forall i :: 0 <= i < |windows| - 1 ==> |windows[i]| == MaxChunkSize
  {
    var state := new H264InspectionState();
    var reader := new AnnexBReader.Accumulate(state);
    windows := PushInWindows(reader, sampleData);
    assert windows == reader.log;
    assert reader.pushed == sampleData;
    var handler := reader.IntoNalHandler(split, decode);
    r := AssembleResult(handler.State());
  }

  /** The public entry point: only H.264 is inspected, every other codec is refused up front. */
  method InspectVideoChunk(sampleData: seq<byte>, codec: VideoCodec, split: Splitter, decode: SpsDecoder)
    returns (r: InspectionResult)
    ensures codec != H264 ==> r == Err(UnsupportedCodec(codec))
    ensures codec == H264 ==> r == InspectNalUnits(split(sampleData), decode)
  {
    match codec {
      case H264 =>
        ghost var windows;
        r, windows := InspectH264AnnexbSample(sampleData, split, decode);
      case H265 => r := Err(UnsupportedCodec(codec));
      case AV1 => r := Err(UnsupportedCodec(codec));
      case VP8 => r := Err(UnsupportedCodec(codec));
      case VP9 => r := Err(UnsupportedCodec(codec));
    }
  }

  // ---------------------------------------------------------------------------------------------
  // Lemmas
  // ---------------------------------------------------------------------------------------------

  lemma {:induction false} FoldNalsAppend(s: InspectionState, a: seq<NalUnit>, b: seq<NalUnit>, decode: SpsDecoder)
    ensures FoldNals(s, a + b, decode) == FoldNals(FoldNals(s, a, decode), b, decode)
    decreases |a|
  {
    if a == [] {
      assert a + b == b;
    } else {
      assert (a + b)[0] == a[0];
      assert (a + b)[1..] == a[1..] + b;
      FoldNalsAppend(Step(s, a[0], decode).0, a[1..], b, decode);
    }
  }

  lemma FoldNalsSnoc(s: InspectionState, a: seq<NalUnit>, x: NalUnit, decode: SpsDecoder)
    ensures FoldNals(s, a + [x], decode) == Step(FoldNals(s, a, decode), x, decode).0
  {
    FoldNalsAppend(s, a, [x], decode);
    assert [x][1..] == [];
  }

  lemma HasIdrSnoc(a: seq<NalUnit>, x: NalUnit)
    ensures HasIdr(a + [x]) <==> HasIdr(a) || IsIdrSlice(x)
  {
    if HasIdr(a) {
      var i :| 0 <= i < |a| && IsIdrSlice(a[i]);
      assert (a + [x])[i] == a[i];
    }
    if IsIdrSlice(x) {
      assert (a + [x])[|a|] == x;
    }
    if HasIdr(a + [x]) {
      var i :| 0 <= i < |a + [x]| && IsIdrSlice((a + [x])[i]);
      if i < |a| {
        assert (a + [x])[i] == a[i];
      }
    }
  }

  /** The fold keeps exactly three facts: the last complete SPS, whether an IDR slice was seen,
      and how many slices were seen. */
  lemma {:induction false} FoldNalsCharacterized(s: InspectionState, nals: seq<NalUnit>, decode: SpsDecoder)
    ensures FoldNals(s, nals, decode) == InspectionState(
      if LastSps(nals, decode).Some? then LastSps(nals, decode) else s.codingDetailsFromSps,
      s.idrFrameFound || HasIdr(nals),
      s.numFramesDetected + SliceCount(nals))
    decreases |nals|
  {
    if nals == [] {
      assert !HasIdr(nals);
    } else {
      var init, last := nals[..|nals| - 1], nals[|nals| - 1];
      assert nals == init + [last];
      FoldNalsCharacterized(s, init, decode);
      FoldNalsSnoc(s, init, last, decode);
      HasIdrSnoc(init, last);
      assert SliceCount(nals) == SliceCount(init) + (if IsSlice(last) then 1 else 0);
      assert LastSps(nals, decode) ==
        if IsCompleteSps(last) then Some(SpsOutcome(decode(last.payload))) else LastSps(init, decode);
    }
  }

  /** The inspection outcome, case by case on the last complete SPS. */
  lemma InspectionCharacterized(nals: seq<NalUnit>, decode: SpsDecoder)
    ensures var r := InspectNalUnits(nals, decode);
      match LastSps(nals, decode)
      case Some(Err(message)) => r == Err(FailedToExtractEncodingDetails(message))
      case Some(Ok(details)) =>
        r == Ok(VideoChunkInspection(if HasIdr(nals) then StartOfGop(details) else NotStartOfGop,
                                     Some(SliceCount(nals))))
      case None => r == Ok(VideoChunkInspection(NotStartOfGop, Some(SliceCount(nals))))
  {
    FoldNalsCharacterized(DefaultState, nals, decode);
  }

  /** A successful inspection always reports `Some(k)` frames, k being the number of slices. */
  lemma SuccessCountsSlices(nals: seq<NalUnit>, decode: SpsDecoder)
    ensures InspectNalUnits(nals, decode).Ok? ==>
      InspectNalUnits(nals, decode).value.numFramesDetected == Some(SliceCount(nals))
  {
    InspectionCharacterized(nals, decode);
  }

  /** Start of GOP exactly when the last complete SPS decoded to `details` and an IDR slice was seen. */
  lemma StartOfGopIff(nals: seq<NalUnit>, decode: SpsDecoder, details: VideoEncodingDetails)
    ensures (InspectNalUnits(nals, decode).Ok? &&
             InspectNalUnits(nals, decode).value.gopDetection == StartOfGop(details))
        <==> LastSps(nals, decode) == Some(Ok(details)) && HasIdr(nals)
  {
    InspectionCharacterized(nals, decode);
  }

  /** The inspection fails exactly when the last complete SPS failed to decode, whatever slices
      came with it, and the message is the decoder's text behind a fixed prefix. */
  lemma FailureIffLastSpsFailed(nals: seq<NalUnit>, decode: SpsDecoder)
    ensures InspectNalUnits(nals, decode).Err? <==> LastSps(nals, decode).Some? && LastSps(nals, decode).value.Err?
    ensures InspectNalUnits(nals, decode).Err? ==>
      exists i, problem :: (0 <= i < |nals| && IsCompleteSps(nals[i]) && decode(nals[i].payload) == Err(problem) &&
                            InspectNalUnits(nals, decode).error == FailedToExtractEncodingDetails("Failed reading SPS: " + problem))
  {
    InspectionCharacterized(nals, decode);
    if LastSps(nals, decode).Some? {
      LastSpsFrom(nals, decode);
    }
  }

  /** A stored SPS outcome always comes from a complete SPS delivery. */
  lemma {:induction false} LastSpsFrom(nals: seq<NalUnit>, decode: SpsDecoder)
    requires LastSps(nals, decode).Some?
    ensures exists i :: (0 <= i < |nals| && IsCompleteSps(nals[i]) &&
                         LastSps(nals, decode) == Some(SpsOutcome(decode(nals[i].payload))))
    decreases |nals|
  {
    var init, last := nals[..|nals| - 1], nals[|nals| - 1];
    if IsCompleteSps(last) {
      assert nals[|nals| - 1] == last;
    } else {
      LastSpsFrom(init, decode);
      var i :| 0 <= i < |init| && IsCompleteSps(init[i]) &&
        LastSps(init, decode) == Some(SpsOutcome(decode(init[i].payload)));
      assert nals[i] == init[i];
    }
  }

  /** With several SPS units the last complete one wins, whatever came before it. */
  lemma {:induction false} LastCompleteSpsWins(a: seq<NalUnit>, x: NalUnit, b: seq<NalUnit>, decode: SpsDecoder)
    requires IsCompleteSps(x)
    requires forall i :: 0 <= i < |b| ==> !IsCompleteSps(b[i])
    ensures LastSps(a + [x] + b, decode) == Some(SpsOutcome(decode(x.payload)))
    decreases |b|
  {
    var all := a + [x] + b;
    if b == [] {
      assert all[|all| - 1] == x;
    } else {
      var init := b[..|b| - 1];
      assert all[..|all| - 1] == a + [x] + init;
      assert all[|all| - 1] == b[|b| - 1];
      LastCompleteSpsWins(a, x, init, decode);
    }
  }

  /** A delivery whose header fails to parse, or whose type is none of SPS, IDR or non-IDR slice,
      changes nothing. */
  lemma InertUnitIgnored(s: InspectionState, nal: NalUnit, decode: SpsDecoder)
    requires ParseNalHeader(nal.headerByte).Err? || NalUnitType(ParseNalHeader(nal.headerByte).value).OtherUnitType?
    ensures Step(s, nal, decode) == (s, Ignore)
  {
  }

  /** The handler asks for more bytes exactly for an incomplete SPS, and then changes nothing. */
  lemma BufferOnlyForIncompleteSps(s: InspectionState, nal: NalUnit, decode: SpsDecoder)
    ensures Step(s, nal, decode).1 == Buffer <==> IsIncompleteSps(nal)
    ensures IsIncompleteSps(nal) ==> Step(s, nal, decode).0 == s
  {
  }

  /** Partial deliveries of an SPS leave no trace: only the complete delivery is decoded. */
  lemma {:induction false} PartialSpsDeliveriesDeferred(s: InspectionState, partials: seq<NalUnit>, x: NalUnit, decode: SpsDecoder)
    requires forall i :: 0 <= i < |partials| ==> IsIncompleteSps(partials[i])
    ensures FoldNals(s, partials + [x], decode) == Step(s, x, decode).0
    decreases |partials|
  {
    if partials == [] {
      FoldNalsSnoc(s, partials, x, decode);
    } else {
      assert (partials + [x])[1..] == partials[1..] + [x];
      assert Step(s, partials[0], decode).0 == s;
      PartialSpsDeliveriesDeferred(s, partials[1..], x, decode);
    }
  }

  /** Incomplete SPS deliveries alone leave the state as it was. */
  lemma {:induction false} PartialSpsDeliveriesInert(s: InspectionState, partials: seq<NalUnit>, decode: SpsDecoder)
    requires forall i :: 0 <= i < |partials| ==> IsIncompleteSps(partials[i])
    ensures FoldNals(s, partials, decode) == s
    decreases |partials|
  {
    if partials != [] {
      assert Step(s, partials[0], decode).0 == s;
      PartialSpsDeliveriesInert(s, partials[1..], decode);
    }
  }

  /** Wherever a reader re-delivers a straddling SPS as incomplete units, those deliveries leave no
      trace: the result is that of the deliveries without them. */
  lemma PartialSpsDeliveriesAnywhere(s: InspectionState, a: seq<NalUnit>, partials: seq<NalUnit>, b: seq<NalUnit>,
                                     decode: SpsDecoder)
    requires forall i :: 0 <= i < |partials| ==> IsIncompleteSps(partials[i])
    ensures FoldNals(s, a + partials + b, decode) == FoldNals(s, a + b, decode)
  {
    FoldNalsAppend(s, a + partials, b, decode);
    FoldNalsAppend(s, a, partials, decode);
    PartialSpsDeliveriesInert(FoldNals(s, a, decode), partials, decode);
    FoldNalsAppend(s, a, b, decode);
  }

  /** Slices and SPS units commute: an SPS before or after a non-SPS unit gives the same state. */
  lemma SpsCommutesWithOtherUnits(s: InspectionState, a: seq<NalUnit>, x: NalUnit, y: NalUnit, b: seq<NalUnit>, decode: SpsDecoder)
    requires IsCompleteSps(x) && !IsOfType(y, SeqParameterSet)
    ensures FoldNals(s, a + [x, y] + b, decode) == FoldNals(s, a + [y, x] + b, decode)
  {
    var t := FoldNals(s, a, decode);
    FoldNalsAppend(s, a + [x, y], b, decode);
    FoldNalsAppend(s, a + [y, x], b, decode);
    FoldNalsAppend(s, a, [x, y], decode);
    FoldNalsAppend(s, a, [y, x], decode);
    assert [x, y][1..] == [y] && [y][1..] == [];
    assert [y, x][1..] == [x] && [x][1..] == [];
  }

  /** Slice counts add up over concatenation: each slice adds exactly one frame. */
  lemma {:induction false} SliceCountAppend(a: seq<NalUnit>, b: seq<NalUnit>)
    ensures SliceCount(a + b) == SliceCount(a) + SliceCount(b)
    decreases |b|
  {
    if b == [] {
      assert a + b == a;
    } else {
      var init := b[..|b| - 1];
      assert (a + b)[..|a + b| - 1] == a + init;
      assert (a + b)[|a + b| - 1] == b[|b| - 1];
      SliceCountAppend(a, init);
    }
  }

  // ---------------------------------------------------------------------------------------------
  // The samples of the unit tests
  // ---------------------------------------------------------------------------------------------

  /** The header bytes used by the tests select SPS, IDR and non-IDR slices. */
  lemma TestHeaderBytes()
    ensures ParseNalHeader(0x67) == Ok(NalHeader(0x67)) && NalUnitType(NalHeader(0x67)) == SeqParameterSet
    ensures ParseNalHeader(0x65) == Ok(NalHeader(0x65)) && NalUnitType(NalHeader(0x65)) == SliceLayerWithoutPartitioningIdr
    ensures ParseNalHeader(0x61) == Ok(NalHeader(0x61)) && NalUnitType(NalHeader(0x61)) == SliceLayerWithoutPartitioningNonIdr
  {
  }

  const TestSpsPayload: seq<byte> := [
    0x64, 0x00, 0x0A, 0xAC, 0x72, 0x84, 0x44, 0x26, 0x84, 0x00, 0x00, 0x03, 0x00, 0x04,
    0x00, 0x00, 0x03, 0x00, 0xCA, 0x3C, 0x48, 0x96, 0x11, 0x80]

  /** The same SPS with its first byte (profile_idc) zeroed. */
  const TestBrokenSpsPayload: seq<byte> := [0x00] + TestSpsPayload[1..]

  const TestSlicePayload: seq<byte> := [
    0x88, 0x84, 0x21, 0x43, 0x02, 0x4C, 0x82, 0x54, 0x2B, 0x8F, 0x2C, 0x8C, 0x54, 0x4A,
    0x92, 0x54, 0x2B, 0x8F, 0x2C, 0x8C, 0x54, 0x4A, 0x92]

  const TestDetails := VideoEncodingDetails("avc1.64000A", (64, 64), Some(8), Some(Yuv420))

  const TestSps := NalUnit(0x67, true, TestSpsPayload)
  const TestIdr := NalUnit(0x65, true, TestSlicePayload)
  const TestNonIdr := NalUnit(0x61, true, TestSlicePayload)

  /** SPS then IDR: start of GOP with one frame; with one more non-IDR slice, two frames. */
  lemma SpsAndIdrStartGop(decode: SpsDecoder)
    requires decode(TestSpsPayload) == Ok(TestDetails)
    ensures InspectNalUnits([TestSps, TestIdr], decode) ==
      Ok(VideoChunkInspection(StartOfGop(TestDetails), Some(1)))
    ensures InspectNalUnits([TestSps, TestIdr, TestNonIdr], decode) ==
      Ok(VideoChunkInspection(StartOfGop(TestDetails), Some(2)))
  {
    var s1 := InspectionState(Some(Ok(TestDetails)), false, 0);
    var s2 := InspectionState(Some(Ok(TestDetails)), true, 1);
    var s3 := InspectionState(Some(Ok(TestDetails)), true, 2);
    assert Step(DefaultState, TestSps, decode).0 == s1;
    assert Step(s1, TestIdr, decode).0 == s2;
    assert Step(s2, TestNonIdr, decode).0 == s3;
    FoldNalsAppend(DefaultState, [TestSps], [TestIdr], decode);
    FoldNalsAppend(DefaultState, [TestSps, TestIdr], [TestNonIdr], decode);
    assert [TestSps] + [TestIdr] == [TestSps, TestIdr];
    assert [TestSps, TestIdr] + [TestNonIdr] == [TestSps, TestIdr, TestNonIdr];
  }

  /** A broken SPS is a hard error even though a valid IDR slice follows it, whatever the decoder
      reports. */
  lemma BrokenSpsFails(decode: SpsDecoder, error: string)
    requires decode(TestBrokenSpsPayload) == Err(error)
    ensures InspectNalUnits([NalUnit(0x67, true, TestBrokenSpsPayload), TestIdr], decode) ==
      Err(FailedToExtractEncodingDetails("Failed reading SPS: " + error))
  {
    var broken := NalUnit(0x67, true, TestBrokenSpsPayload);
    var s1 := InspectionState(Some(Err("Failed reading SPS: " + error)), false, 0);
    assert Step(DefaultState, broken, decode).0 == s1;
    assert Step(s1, TestIdr, decode).0 == s1.(idrFrameFound := true, numFramesDetected := 1);
    FoldNalsAppend(DefaultState, [broken], [TestIdr], decode);
    assert [broken] + [TestIdr] == [broken, TestIdr];
  }

  /** Two non-IDR slices and no SPS: not a start, two frames. */
  lemma TwoNonIdrSlices(decode: SpsDecoder)
    ensures InspectNalUnits([TestNonIdr, TestNonIdr], decode) ==
      Ok(VideoChunkInspection(NotStartOfGop, Some(2)))
  {
    var s1 := InspectionState(None, false, 1);
    assert Step(DefaultState, TestNonIdr, decode).0 == s1;
    assert Step(s1, TestNonIdr, decode).0 == s1.(numFramesDetected := 2);
    FoldNalsAppend(DefaultState, [TestNonIdr], [TestNonIdr], decode);
    assert [TestNonIdr] + [TestNonIdr] == [TestNonIdr, TestNonIdr];
  }

  /** An SPS alone (whether or not its end was seen) and bytes without any start code: not a
      start, no frames. */
  lemma NoSliceNoStart(decode: SpsDecoder)
    requires decode(TestSpsPayload) == Ok(TestDetails)
    ensures InspectNalUnits([NalUnit(0x67, false, TestSpsPayload)], decode) ==
      Ok(VideoChunkInspection(NotStartOfGop, Some(0)))
    ensures InspectNalUnits([TestSps], decode) == Ok(VideoChunkInspection(NotStartOfGop, Some(0)))
    ensures InspectNalUnits([], decode) == Ok(VideoChunkInspection(NotStartOfGop, Some(0)))
  {
    assert Step(DefaultState, NalUnit(0x67, false, TestSpsPayload), decode).0 == DefaultState;
    assert Step(DefaultState, TestSps, decode).0 == InspectionState(Some(Ok(TestDetails)), false, 0);
    FoldNalsSnoc(DefaultState, [], NalUnit(0x67, false, TestSpsPayload), decode);
    FoldNalsSnoc(DefaultState, [], TestSps, decode);
    assert [] + [TestSps] == [TestSps];
    assert [] + [NalUnit(0x67, false, TestSpsPayload)] == [NalUnit(0x67, false, TestSpsPayload)];
  }
}
