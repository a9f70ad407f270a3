// MessageLabel: a text label that runs the platform's data detector over its
// text, keeps the results grouped by detector type, styles the ranges of the
// enabled detectors, and on a click reports the first stored range that
// contains the clicked character. Property changes either reparse the text
// or only restyle it; `configure(block:)` batches attribute changes.
module Label {
  import opened Kit
  import opened EdgeInsets
  import opened TextAlignment

  /** The detectors a label can enable. */
  datatype DetectorType = Address | Date | PhoneNumber | Url

  /** The order in which the model visits the range table: Swift's
      dictionary order is unspecified, so a fixed one is chosen. */
  const CanonicalOrder: seq<DetectorType> := [Address, Date, PhoneNumber, Url]

  lemma CanonicalOrderListsEveryDetector(d: DetectorType)
    ensures d in CanonicalOrder
  {
  }

  /** NSTextCheckingResult.CheckingType as the label meets it; every other
      type a detector could report is `CheckOther`. */
  datatype CheckingType = CheckAddress | CheckDate | CheckPhoneNumber | CheckLink | CheckOther(rawValue: nat)

  /** A detector's `textCheckingType`: url detection reports links. */
  function CheckingTypeOf(d: DetectorType): CheckingType {
    match d
    case Address => CheckAddress
    case Date => CheckDate
    case PhoneNumber => CheckPhoneNumber
    case Url => CheckLink
  }

  /** NSRange over character positions. */
  datatype TextRange = TextRange(location: nat, length: nat) {
    predicate Contains(index: nat) {
      location <= index < location + length
    }
  }

  /** One result of the platform matcher, with the payloads it may carry. */
  datatype CheckingResult = CheckingResult(
    resultType: CheckingType,
    range: TextRange,
    addressComponents: Option<map<string, string>>,
    date: Option<int>,
    phoneNumber: Option<string>,
    url: Option<string>)

  /** MessageTextCheckingType: the payload stored with a range. */
  datatype MessageTextCheckingType =
    | AddressComponents(components: Option<map<string, string>>)
    | DateValue(date: Option<int>)
    | PhoneNumberValue(phoneNumber: Option<string>)
    | Link(url: Option<string>)

  /** One stored entry of the range table. */
  datatype Span = Span(range: TextRange, value: MessageTextCheckingType)

  type Table = map<DetectorType, seq<Span>>

  /** The list stored for a detector, empty when it has none (`?? []`). */
  function Lookup(table: Table, d: DetectorType): seq<Span> {
    if d in table then table[d] else []
  }

  /** Which list a result goes to and what it stores there; the switch of
      `setRangesForDetectors`, where a link is stored under `.url` and any
      other result type has no list. */
  function Classify(result: CheckingResult): (r: Option<(DetectorType, Span)>)
    ensures r.None? <==> result.resultType.CheckOther?
    ensures r.Some? ==> CheckingTypeOf(r.value.0) == result.resultType && r.value.1.range == result.range
  {
    match result.resultType
    case CheckAddress => Some((Address, Span(result.range, AddressComponents(result.addressComponents))))
    case CheckDate => Some((Date, Span(result.range, DateValue(result.date))))
    case CheckPhoneNumber => Some((PhoneNumber, Span(result.range, PhoneNumberValue(result.phoneNumber))))
    case CheckLink => Some((Url, Span(result.range, Link(result.url))))
    case CheckOther(_) => None
  }

  /** The table after appending each result, in order, to the list of its
      type; fatal at the first result of an unrecognised type. */
  function GroupedInto(table: Table, results: seq<CheckingResult>): Result<Table>
    decreases |results|
  {
    if |results| == 0 then Success(table)
    else
      match GroupedInto(table, results[..|results| - 1])
      case Failure(e) => Failure(e)
      case Success(t) =>
        match Classify(results[|results| - 1])
        case None => Failure(UnrecognizedResultType)
        case Some((d, span)) => Success(t[d := Lookup(t, d) + [span]])
  }

  /** The spans of one detector type among the results, in input order. */
  function SpansOf(results: seq<CheckingResult>, d: DetectorType): seq<Span> {
    if |results| == 0 then []
    else
      var head := Classify(results[0]);
      (if head.Some? && head.value.0 == d then [head.value.1] else []) + SpansOf(results[1..], d)
  }

  lemma {:induction false} SpansOfAppend(a: seq<CheckingResult>, b: seq<CheckingResult>, d: DetectorType)
    ensures SpansOf(a + b, d) == SpansOf(a, d) + SpansOf(b, d)
  {
    if |a| == 0 {
      assert a + b == b;
    } else {
      assert (a + b)[1..] == a[1..] + b;
      SpansOfAppend(a[1..], b, d);
    }
  }

  /** Grouping appends, for each type, exactly that type's results in input
      order to what the table held before. */
  lemma {:induction false} GroupingKeepsInputOrder(table: Table, results: seq<CheckingResult>, d: DetectorType)
    requires GroupedInto(table, results).Success?
    ensures Lookup(GroupedInto(table, results).value, d) == Lookup(table, d) + SpansOf(results, d)
  {
    if |results| > 0 {
      var init, last := results[..|results| - 1], results[|results| - 1];
      assert results == init + [last];
      GroupingKeepsInputOrder(table, init, d);
      SpansOfAppend(init, [last], d);
      assert SpansOf([last], d) == (if Classify(last).Some? && Classify(last).value.0 == d then [Classify(last).value.1] else []) + SpansOf([], d);
    }
  }

  /** Grouping is fatal exactly when some result has an unrecognised type. */
  lemma {:induction false} GroupingFailsOnUnrecognisedType(table: Table, results: seq<CheckingResult>)
    ensures GroupedInto(table, results).Failure? <==> exists i :: 0 <= i < |results| && results[i].resultType.CheckOther?
    ensures GroupedInto(table, results).Failure? ==> GroupedInto(table, results).error == UnrecognizedResultType
  {
    if |results| > 0 {
      var init := results[..|results| - 1];
      GroupingFailsOnUnrecognisedType(table, init);
      assert forall i :: 0 <= i < |init| ==> init[i] == results[i];
    }
  }

  /** Once a prefix of the results is fatal, so is every longer prefix. */
  lemma {:induction false} GroupingFailureSticks(table: Table, results: seq<CheckingResult>, n: nat)
    requires n <= |results| && GroupedInto(table, results[..n]).Failure?
    ensures GroupedInto(table, results).Failure?
    decreases |results| - n
  {
    if n < |results| {
      assert results[..n + 1][..n] == results[..n];
      GroupingFailureSticks(table, results, n + 1);
    } else {
      assert results[..n] == results;
    }
  }

  // ---------------------------------------------------------------------
  // Styling.

  /** An attribute dictionary, keys and values by name. */
  type Attributes = map<string, string>

  /** `defaultAttributes`: dark shadow foreground, single underline, dark
      shadow underline colour. */
  const DefaultAttributes: Attributes :=
    map["foregroundColor" := "controlDarkShadowColor",
        "underlineStyle" := "styleSingle",
        "underlineColor" := "controlDarkShadowColor"]

  /** The label's four per-detector attribute dictionaries. */
  datatype DetectorStyles = DetectorStyles(address: Attributes, date: Attributes, phoneNumber: Attributes, url: Attributes) {
    /** `detectorAttributes(for: DetectorType)`. */
    function For(d: DetectorType): Attributes {
      match d
      case Address => address
      case Date => date
      case PhoneNumber => phoneNumber
      case Url => url
    }

    /** `detectorAttributes(for: NSTextCheckingResult.CheckingType)`: the
        link type reads the url attributes; any other type is fatal. */
    function ForCheckingType(t: CheckingType): (r: Result<Attributes>)
      ensures r.Failure? <==> t.CheckOther?
      ensures r.Failure? ==> r.error == UnrecognizedCheckingResult
    {
      match t
      case CheckAddress => Success(address)
      case CheckDate => Success(date)
      case CheckPhoneNumber => Success(phoneNumber)
      case CheckLink => Success(url)
      case CheckOther(_) => Failure(UnrecognizedCheckingResult)
    }

    /** `setAttributes(_:detector:)`'s switch: only the given detector's
        dictionary is replaced. */
    function With(d: DetectorType, attributes: Attributes): (r: DetectorStyles)
      ensures r.For(d) == attributes
      ensures forall e :: e != d ==> r.For(e) == For(e)
    {
      match d
      case PhoneNumber => this.(phoneNumber := attributes)
      case Address => this.(address := attributes)
      case Date => this.(date := attributes)
      case Url => this.(url := attributes)
    }
  }

  /** The two `detectorAttributes` agree: a detector's checking type reads
      that detector's attributes. */
  lemma DetectorAttributesAgree(styles: DetectorStyles, d: DetectorType)
    ensures styles.ForCheckingType(CheckingTypeOf(d)) == Success(styles.For(d))
  {
  }

  /** One `addAttributes(_:range:)` call on the text. */
  datatype Run = Run(range: TextRange, attributes: Attributes)

  datatype LineBreakMode = ByWordWrapping | ByCharWrapping | ByClipping | ByTruncatingHead | ByTruncatingTail | ByTruncatingMiddle

  /** The paragraph style the label installs over its whole text. */
  datatype Paragraph = Paragraph(lineBreakMode: LineBreakMode, alignment: NSTextAlignment)

  /** The text storage's content: its characters, the paragraph style
      applied over the whole text (if any), and the detector runs applied
      in order. */
  datatype StyledText = StyledText(chars: string, paragraph: Option<Paragraph>, runs: seq<Run>)

  const EmptyStorage := StyledText("", None, [])

  /** One detector's spans, each styled with the same attributes. */
  function RunsOf(spans: seq<Span>, attributes: Attributes): (r: seq<Run>)
    ensures |r| == |spans|
    ensures forall k :: 0 <= k < |spans| ==> r[k] == Run(spans[k].range, attributes)
  {
    if |spans| == 0 then []
    else RunsOf(spans[..|spans| - 1], attributes) + [Run(spans[|spans| - 1].range, attributes)]
  }

  /** The styling loop of `setTextStorage`: the table's detectors in the
      given order, each that is enabled contributing its spans. */
  function StylingRuns(order: seq<DetectorType>, table: Table, enabled: seq<DetectorType>, styles: DetectorStyles): seq<Run> {
    if |order| == 0 then []
    else
      var d := order[|order| - 1];
      StylingRuns(order[..|order| - 1], table, enabled, styles)
        + (if d in table && d in enabled then RunsOf(table[d], styles.For(d)) else [])
  }

  /** Every run the styling loop applies belongs to an enabled detector: it
      styles one of that detector's stored ranges with its attributes. */
  lemma {:induction false} StylingOnlyEnabled(order: seq<DetectorType>, table: Table, enabled: seq<DetectorType>, styles: DetectorStyles, k: nat)
    requires k < |StylingRuns(order, table, enabled, styles)|
    ensures exists d, j :: (d in enabled && d in table && 0 <= j < |table[d]|
      && StylingRuns(order, table, enabled, styles)[k] == Run(table[d][j].range, styles.For(d)))
  {
    var init := order[..|order| - 1];
    var d := order[|order| - 1];
    var prefix := StylingRuns(init, table, enabled, styles);
    if k < |prefix| {
      StylingOnlyEnabled(init, table, enabled, styles, k);
    } else {
      var j := k - |prefix|;
      assert StylingRuns(order, table, enabled, styles)[k] == RunsOf(table[d], styles.For(d))[j];
    }
  }

  /** Every stored range of an enabled detector in the order is styled with
      that detector's attributes. */
  lemma {:induction false} StylingCoversEnabled(order: seq<DetectorType>, table: Table, enabled: seq<DetectorType>, styles: DetectorStyles, d: DetectorType, j: nat)
    requires d in order && d in enabled && d in table && j < |table[d]|
    ensures Run(table[d][j].range, styles.For(d)) in StylingRuns(order, table, enabled, styles)
  {
    var init := order[..|order| - 1];
    var prefix := StylingRuns(init, table, enabled, styles);
    if order[|order| - 1] == d {
      assert StylingRuns(order, table, enabled, styles)[|prefix| + j] == RunsOf(table[d], styles.For(d))[j];
    } else {
      assert order == init + [order[|order| - 1]];
      StylingCoversEnabled(init, table, enabled, styles, d, j);
    }
  }

  /** The runs `updateAttributes(for:)` applies: the listed detectors in
      order, each with stored ranges contributing them. */
  function UpdateRuns(detectors: seq<DetectorType>, table: Table, styles: DetectorStyles): seq<Run> {
    if |detectors| == 0 then []
    else
      var d := detectors[|detectors| - 1];
      UpdateRuns(detectors[..|detectors| - 1], table, styles) + (if d in table then RunsOf(table[d], styles.For(d)) else [])
  }

  /** An update restyles only the detectors it is given. */
  lemma {:induction false} UpdateOnlyListed(detectors: seq<DetectorType>, table: Table, styles: DetectorStyles, k: nat)
    requires k < |UpdateRuns(detectors, table, styles)|
    ensures exists d, j :: (d in detectors && d in table && 0 <= j < |table[d]|
      && UpdateRuns(detectors, table, styles)[k] == Run(table[d][j].range, styles.For(d)))
  {
    var init := detectors[..|detectors| - 1];
    var d := detectors[|detectors| - 1];
    var prefix := UpdateRuns(init, table, styles);
    if k < |prefix| {
      UpdateOnlyListed(init, table, styles, k);
      var e, j :| e in init && e in table && 0 <= j < |table[e]| && prefix[k] == Run(table[e][j].range, styles.For(e));
      assert e in detectors;
    } else {
      var j := k - |prefix|;
      assert UpdateRuns(detectors, table, styles)[k] == RunsOf(table[d], styles.For(d))[j];
    }
  }

  /** Some listed detector has stored ranges. */
  predicate Touches(detectors: seq<DetectorType>, table: Table) {
    exists k :: 0 <= k < |detectors| && detectors[k] in table
  }

  // ---------------------------------------------------------------------
  // Gestures.

  /** What the label reports to its delegate. */
  datatype Selection =
    | SelectedAddress(components: map<string, string>)
    | SelectedPhoneNumber(phoneNumber: string)
    | SelectedDate(date: int)
    | SelectedUrl(url: string)

  /** `handleGesture(for:value:)`: the stored value's payload, reported by
      its own case; a nil payload reports nothing. */
  function SelectionFor(value: MessageTextCheckingType): (r: Option<Selection>)
    ensures r.None? <==> match value
      case AddressComponents(c) => c.None?
      case DateValue(v) => v.None?
      case PhoneNumberValue(p) => p.None?
      case Link(u) => u.None?
    ensures r.Some? ==> match value
      case AddressComponents(c) => r.value == SelectedAddress(c.value)
      case DateValue(v) => r.value == SelectedDate(v.value)
      case PhoneNumberValue(p) => r.value == SelectedPhoneNumber(p.value)
      case Link(u) => r.value == SelectedUrl(u.value)
  {
    match value
    case AddressComponents(components) =>
      if components.None? then None else Some(SelectedAddress(components.value))
    case PhoneNumberValue(phoneNumber) =>
      if phoneNumber.None? then None else Some(SelectedPhoneNumber(phoneNumber.value))
    case DateValue(date) =>
      if date.None? then None else Some(SelectedDate(date.value))
    case Link(url) =>
      if url.None? then None else Some(SelectedUrl(url.value))
  }

  /** The `m`-th range stored for the `k`-th detector contains the index. */
  ghost predicate HitAt(table: Table, index: nat, k: int, m: int) {
    && 0 <= k < |CanonicalOrder|
    && CanonicalOrder[k] in table
    && 0 <= m < |table[CanonicalOrder[k]]|
    && table[CanonicalOrder[k]][m].range.Contains(index)
  }

  // ---------------------------------------------------------------------
  // The label.

  datatype Font = Font(id: nat)

  /** A property assignment made inside a `configure(block:)` block. */
  datatype LabelChange =
    | ChangeAttributedStringValue(text: AttributedString)
    | ChangeStringValue(plain: string)
    | ChangeEnabledDetectors(detectors: seq<DetectorType>)
    | ChangeFont(font: Font)
    | ChangeTextColor(color: Color)
    | ChangeLineBreakMode(mode: LineBreakMode)
    | ChangeMaximumNumberOfLines(lines: int)
    | ChangeAlignment(alignment: NSTextAlignment)
    | ChangeTextInsets(insets: NSEdgeInsets)
    | ChangeDetectorAttributes(attributes: Attributes, detector: DetectorType)

  /** The label's settable properties, as a record: everything a configure
      block can assign, with the text container's mirrored line settings. */
  datatype LabelSettings = LabelSettings(
    enabledDetectors: seq<DetectorType>,
    attributedStringValue: AttributedString,
    font: Font,
    textColor: Color,
    lineBreakMode: LineBreakMode,
    maximumNumberOfLines: int,
    alignment: NSTextAlignment,
    textInsets: NSEdgeInsets,
    styles: DetectorStyles,
    textContainerLineBreakMode: LineBreakMode,
    textContainerMaximumNumberOfLines: int)

  /** The settings after one assignment: its property takes the new value
      (a plain string becomes an attributed one, the line settings reach the
      text container too, an attribute change replaces one detector's
      dictionary) and every other property keeps its value. */
  function ChangedSettings(s: LabelSettings, change: LabelChange): LabelSettings {
    match change
    case ChangeAttributedStringValue(text) => s.(attributedStringValue := text)
    case ChangeStringValue(plain) => s.(attributedStringValue := AttributedString(plain))
    case ChangeEnabledDetectors(detectors) => s.(enabledDetectors := detectors)
    case ChangeFont(f) => s.(font := f)
    case ChangeTextColor(c) => s.(textColor := c)
    case ChangeLineBreakMode(mode) => s.(lineBreakMode := mode, textContainerLineBreakMode := mode)
    case ChangeMaximumNumberOfLines(lines) => s.(maximumNumberOfLines := lines, textContainerMaximumNumberOfLines := lines)
    case ChangeAlignment(a) => s.(alignment := a)
    case ChangeTextInsets(insets) => s.(textInsets := insets)
    case ChangeDetectorAttributes(attributes, detector) => s.(styles := s.styles.With(detector, attributes))
  }

  /** The settings after a block's assignments, in order. */
  function SettingsAfter(s: LabelSettings, block: seq<LabelChange>): LabelSettings {
    if |block| == 0 then s
    else ChangedSettings(SettingsAfter(s, block[..|block| - 1]), block[|block| - 1])
  }

  /** The attributes of the last change in the block that sets the
      detector's, or the fallback when none does. */
  function LastAttributesFor(block: seq<LabelChange>, d: DetectorType, fallback: Attributes): Attributes {
    if |block| == 0 then fallback
    else
      var change := block[|block| - 1];
      if change.ChangeDetectorAttributes? && change.detector == d then change.attributes
      else LastAttributesFor(block[..|block| - 1], d, fallback)
  }

  /** After a block, each detector has the attributes the block last gave
      it, or its old ones. */
  lemma {:induction false} BatchKeepsLastAttributes(s: LabelSettings, block: seq<LabelChange>, d: DetectorType)
    ensures SettingsAfter(s, block).styles.For(d) == LastAttributesFor(block, d, s.styles.For(d))
  {
    if |block| > 0 {
      BatchKeepsLastAttributes(s, block[..|block| - 1], d);
    }
  }

  /** A block of attribute changes only changes the detector styles. */
  lemma {:induction false} AttributeBatchChangesOnlyStyles(s: LabelSettings, block: seq<LabelChange>)
    requires forall k :: 0 <= k < |block| ==> block[k].ChangeDetectorAttributes?
    ensures SettingsAfter(s, block).(styles := s.styles) == s
  {
    if |block| > 0 {
      var init := block[..|block| - 1];
      assert forall k :: 0 <= k < |init| ==> init[k] == block[k];
      AttributeBatchChangesOnlyStyles(s, init);
    }
  }

  class MessageLabel {
    /** The platform data detector: the results it finds in a text for a set
        of detector types. */
    const matcher: (string, set<DetectorType>) -> seq<CheckingResult>

    var rangesForDetectors: Table
    var isConfiguring: bool
    var attributesNeedUpdate: bool
    var enabledDetectors: seq<DetectorType>
    var attributedStringValue: AttributedString
    var font: Font
    var textColor: Color
    var lineBreakMode: LineBreakMode
    var maximumNumberOfLines: int
    var alignment: NSTextAlignment
    var textInsets: NSEdgeInsets
    var addressAttributes: Attributes
    var dateAttributes: Attributes
    var phoneNumberAttributes: Attributes
    var urlAttributes: Attributes
    var textStorage: StyledText
    var textContainerLineBreakMode: LineBreakMode
    var textContainerMaximumNumberOfLines: int
    /** Set by `setNeedsDisplay()`; the display cycle that clears it is not
        part of this model. */
    var needsDisplay: bool

    function Styles(): DetectorStyles
      reads this
    {
      DetectorStyles(addressAttributes, dateAttributes, phoneNumberAttributes, urlAttributes)
    }

    function Settings(): LabelSettings
      reads this
    {
      LabelSettings(enabledDetectors, attributedStringValue, font, textColor, lineBreakMode, maximumNumberOfLines,
                    alignment, textInsets, Styles(), textContainerLineBreakMode, textContainerMaximumNumberOfLines)
    }

    /** The text container mirrors the label's line settings. */
    ghost predicate TextContainerInSync()
      reads this
    {
      textContainerLineBreakMode == lineBreakMode && textContainerMaximumNumberOfLines == maximumNumberOfLines
    }

    /** Between calls: no batch is open and no update is pending. */
    ghost predicate Valid()
      reads this
    {
      !isConfiguring && !attributesNeedUpdate && TextContainerInSync()
    }

    /** `init(frame:)`: no lines limit, word wrapping, no detectors, the
        default attributes for every detector. */
    constructor (matcher: (string, set<DetectorType>) -> seq<CheckingResult>, font: Font, textColor: Color)
      ensures Valid() && this.matcher == matcher
      ensures maximumNumberOfLines == 0 && lineBreakMode == ByWordWrapping
      ensures enabledDetectors == [] && rangesForDetectors == map[]
      ensures attributedStringValue == EmptyAttributedString && textStorage == EmptyStorage
      ensures Styles() == DetectorStyles(DefaultAttributes, DefaultAttributes, DefaultAttributes, DefaultAttributes)
      ensures textInsets == Zero && alignment == NSTextAlignment.Natural
    {
      this.matcher := matcher;
      rangesForDetectors := map[];
      isConfiguring := false;
      attributesNeedUpdate := false;
      enabledDetectors := [];
      attributedStringValue := EmptyAttributedString;
      this.font := font;
      this.textColor := textColor;
      lineBreakMode := ByWordWrapping;
      maximumNumberOfLines := 0;
      alignment := NSTextAlignment.Natural;
      textInsets := Zero;
      addressAttributes := DefaultAttributes;
      dateAttributes := DefaultAttributes;
      phoneNumberAttributes := DefaultAttributes;
      urlAttributes := DefaultAttributes;
      textStorage := EmptyStorage;
      textContainerLineBreakMode := ByWordWrapping;
      textContainerMaximumNumberOfLines := 0;
      needsDisplay := false;
    }

    /** `detectorAttributes(for: DetectorType)` on the label's fields. */
    function DetectorAttributes(d: DetectorType): Attributes
      reads this
    {
      Styles().For(d)
    }

    /** `parse(text:)`: nothing to find when no detector is enabled;
        otherwise what the platform matcher finds for the enabled types. */
    function Parse(text: AttributedString): (r: seq<CheckingResult>)
      reads this
      ensures |enabledDetectors| == 0 ==> r == []
      ensures |enabledDetectors| > 0 ==> r == matcher(text.plainString, set d | d in enabledDetectors)
    {
      if |enabledDetectors| == 0 then [] else matcher(text.plainString, set d | d in enabledDetectors)
    }

    /** The state `setTextStorage(_:shouldParse:)` leaves, given the range
        table and display flag it started from. */
    ghost predicate TextStorageAfter(oldRanges: Table, oldNeedsDisplay: bool, newText: Option<AttributedString>, shouldParse: bool, outcome: Outcome)
      reads this
    {
      if newText.None? || |newText.value.plainString| == 0 then
        outcome == Done && textStorage == EmptyStorage && needsDisplay && rangesForDetectors == oldRanges
      else
        var ranges := if shouldParse then GroupedInto(map[], Parse(newText.value)) else Success(oldRanges);
        match ranges
        case Failure(e) => outcome == Fatal(e)
        case Success(table) =>
          && outcome == Done
          && rangesForDetectors == table
          && textStorage == StyledText(newText.value.plainString, Some(Paragraph(lineBreakMode, alignment)),
                                       StylingRuns(CanonicalOrder, table, enabledDetectors, Styles()))
          && needsDisplay == (oldNeedsDisplay || !isConfiguring)
    }

    /** `setRangesForDetectors(in:)`: each result is appended to the list of
        its type. */
    method SetRangesForDetectors(checkingResults: seq<CheckingResult>) returns (outcome: Outcome)
      modifies this`rangesForDetectors
      ensures match GroupedInto(old(rangesForDetectors), checkingResults)
              case Success(table) => outcome == Done && rangesForDetectors == table
              case Failure(e) => outcome == Fatal(e)
    {
      if |checkingResults| == 0 {
        return Done;
      }
      for i := 0 to |checkingResults|
        invariant GroupedInto(old(rangesForDetectors), checkingResults[..i]) == Success(rangesForDetectors)
      {
        var result := checkingResults[i];
        assert checkingResults[..i + 1][..i] == checkingResults[..i];
        var key: DetectorType;
        var tuple: Span;
        match result.resultType {
          case CheckAddress =>
            key, tuple := Address, Span(result.range, AddressComponents(result.addressComponents));
          case CheckDate =>
            key, tuple := Date, Span(result.range, DateValue(result.date));
          case CheckPhoneNumber =>
            key, tuple := PhoneNumber, Span(result.range, PhoneNumberValue(result.phoneNumber));
          case CheckLink =>
            key, tuple := Url, Span(result.range, Link(result.url));
          case CheckOther(_) =>
            GroupingFailureSticks(old(rangesForDetectors), checkingResults, i + 1);
            GroupingFailsOnUnrecognisedType(old(rangesForDetectors), checkingResults);
            return Fatal(UnrecognizedResultType);
        }
        var ranges := if key in rangesForDetectors then rangesForDetectors[key] else [];
        ranges := ranges + [tuple];
        rangesForDetectors := rangesForDetectors[key := ranges];
      }
      assert checkingResults[..|checkingResults|] == checkingResults;
      outcome := Done;
    }

    /** The styling loop of `setTextStorage`: for each detector of the
        table that is enabled, its attributes over each of its ranges. */
    method DetectorStylingRuns() returns (runs: seq<Run>)
      ensures runs == StylingRuns(CanonicalOrder, rangesForDetectors, enabledDetectors, Styles())
    {
      runs := [];
      for i := 0 to |CanonicalOrder|
        invariant runs == StylingRuns(CanonicalOrder[..i], rangesForDetectors, enabledDetectors, Styles())
      {
        var detector := CanonicalOrder[i];
        assert CanonicalOrder[..i + 1][..i] == CanonicalOrder[..i];
        if detector in rangesForDetectors && detector in enabledDetectors {
          var attributes := DetectorAttributes(detector);
          var rangeTuples := rangesForDetectors[detector];
          ghost var before := runs;
          for j := 0 to |rangeTuples|
            invariant runs == before + RunsOf(rangeTuples[..j], attributes)
          {
            assert rangeTuples[..j + 1][..j] == rangeTuples[..j];
            runs := runs + [Run(rangeTuples[j].range, attributes)];
          }
          assert rangeTuples[..|rangeTuples|] == rangeTuples;
        }
      }
      assert CanonicalOrder[..|CanonicalOrder|] == CanonicalOrder;
    }

    /** `setTextStorage(_:shouldParse:)`. */
    method SetTextStorage(newText: Option<AttributedString>, shouldParse: bool) returns (outcome: Outcome)
      modifies this`textStorage, this`rangesForDetectors, this`needsDisplay
      ensures TextStorageAfter(old(rangesForDetectors), old(needsDisplay), newText, shouldParse, outcome)
    {
      if newText.None? || |newText.value.plainString| == 0 {
        textStorage := EmptyStorage;
        needsDisplay := true;
        return Done;
      }
      var text := newText.value;
      var style := Paragraph(lineBreakMode, alignment);
      if shouldParse {
        rangesForDetectors := map[];
        var results := Parse(text);
        outcome := SetRangesForDetectors(results);
        if outcome.Fatal? {
          return;
        }
      }
      var runs := DetectorStylingRuns();
      textStorage := StyledText(text.plainString, Some(style), runs);
      if !isConfiguring {
        needsDisplay := true;
      }
      outcome := Done;
    }

    /** The text storage `updateAttributes(for:)` leaves: the label's own
        attributed string, without the paragraph style, restyled with the
        listed detectors' ranges; untouched when the string is empty or no
        listed detector has ranges. */
    ghost function UpdatedStorage(current: StyledText, detectors: seq<DetectorType>): StyledText
      reads this
    {
      if |attributedStringValue.plainString| == 0 then current
      else if Touches(detectors, rangesForDetectors)
      then StyledText(attributedStringValue.plainString, None, UpdateRuns(detectors, rangesForDetectors, Styles()))
      else current
    }

    /** `updateAttributes(for:)`. */
    method UpdateAttributes(detectors: seq<DetectorType>)
      modifies this`textStorage
      ensures textStorage == UpdatedStorage(old(textStorage), detectors)
    {
      if |attributedStringValue.plainString| == 0 {
        return;
      }
      var chars := attributedStringValue.plainString;
      var runs: seq<Run> := [];
      for i := 0 to |detectors|
        invariant runs == UpdateRuns(detectors[..i], rangesForDetectors, Styles())
        invariant textStorage == if Touches(detectors[..i], rangesForDetectors) then StyledText(chars, None, runs) else old(textStorage)
      {
        var detector := detectors[i];
        assert detectors[..i + 1][..i] == detectors[..i];
        assert detectors[..i + 1][i] == detector;
        if detector !in rangesForDetectors {
          assert Touches(detectors[..i + 1], rangesForDetectors) == Touches(detectors[..i], rangesForDetectors);
          continue;
        }
        var rangeTuples := rangesForDetectors[detector];
        ghost var before := runs;
        for j := 0 to |rangeTuples|
          invariant runs == before + RunsOf(rangeTuples[..j], DetectorAttributes(detector))
        {
          assert rangeTuples[..j + 1][..j] == rangeTuples[..j];
          var attributes := DetectorAttributes(detector);
          runs := runs + [Run(rangeTuples[j].range, attributes)];
        }
        assert rangeTuples[..|rangeTuples|] == rangeTuples;
        textStorage := StyledText(chars, None, runs);
      }
      assert detectors[..|detectors|] == detectors;
    }

    /** `setAttributes(_:detector:)`: replaces one detector's attributes;
        inside a configure block it only marks the update as pending,
        outside it restyles that detector at once. */
    method SetAttributes(attributes: Attributes, detector: DetectorType)
      modifies this`addressAttributes, this`dateAttributes, this`phoneNumberAttributes, this`urlAttributes
      modifies this`attributesNeedUpdate, this`textStorage
      ensures Styles() == old(Styles()).With(detector, attributes)
      ensures isConfiguring ==> attributesNeedUpdate && textStorage == old(textStorage)
      ensures !isConfiguring ==>
        attributesNeedUpdate == old(attributesNeedUpdate) && textStorage == UpdatedStorage(old(textStorage), [detector])
    {
      match detector {
        case PhoneNumber => phoneNumberAttributes := attributes;
        case Address => addressAttributes := attributes;
        case Date => dateAttributes := attributes;
        case Url => urlAttributes := attributes;
      }
      if isConfiguring {
        attributesNeedUpdate := true;
      } else {
        UpdateAttributes([detector]);
      }
    }

    /** The `attributedStringValue` observer: reparse. */
    method SetAttributedStringValue(newValue: AttributedString) returns (outcome: Outcome)
      modifies this`attributedStringValue, this`textStorage, this`rangesForDetectors, this`needsDisplay
      ensures attributedStringValue == newValue
      ensures TextStorageAfter(old(rangesForDetectors), old(needsDisplay), Some(newValue), true, outcome)
    {
      attributedStringValue := newValue;
      outcome := SetTextStorage(Some(attributedStringValue), true);
    }

    /** The `stringValue` observer: the plain string becomes the attributed
        value, then reparse. */
    method SetStringValue(newValue: string) returns (outcome: Outcome)
      modifies this`attributedStringValue, this`textStorage, this`rangesForDetectors, this`needsDisplay
      ensures attributedStringValue == AttributedString(newValue)
      ensures TextStorageAfter(old(rangesForDetectors), old(needsDisplay), Some(AttributedString(newValue)), true, outcome)
    {
      attributedStringValue := AttributedString(newValue);
      outcome := SetTextStorage(Some(attributedStringValue), true);
    }

    /** The `enabledDetectors` observer: reparse with the new detectors. */
    method SetEnabledDetectors(detectors: seq<DetectorType>) returns (outcome: Outcome)
      modifies this`enabledDetectors, this`textStorage, this`rangesForDetectors, this`needsDisplay
      ensures enabledDetectors == detectors
      ensures TextStorageAfter(old(rangesForDetectors), old(needsDisplay), Some(attributedStringValue), true, outcome)
    {
      enabledDetectors := detectors;
      outcome := SetTextStorage(Some(attributedStringValue), true);
    }

    /** The `font` observer: restyle without reparsing. */
    method SetFont(newFont: Font)
      modifies this`font, this`textStorage, this`rangesForDetectors, this`needsDisplay
      ensures font == newFont
      ensures rangesForDetectors == old(rangesForDetectors)
      ensures TextStorageAfter(old(rangesForDetectors), old(needsDisplay), Some(attributedStringValue), false, Done)
    {
      font := newFont;
      var _ := SetTextStorage(Some(attributedStringValue), false);
    }

    /** The `textColor` observer: restyle without reparsing. */
    method SetTextColor(newColor: Color)
      modifies this`textColor, this`textStorage, this`rangesForDetectors, this`needsDisplay
      ensures textColor == newColor
      ensures rangesForDetectors == old(rangesForDetectors)
      ensures TextStorageAfter(old(rangesForDetectors), old(needsDisplay), Some(attributedStringValue), false, Done)
    {
      textColor := newColor;
      var _ := SetTextStorage(Some(attributedStringValue), false);
    }

    /** The `alignment` observer: restyle without reparsing. */
    method SetAlignment(newAlignment: NSTextAlignment)
      modifies this`alignment, this`textStorage, this`rangesForDetectors, this`needsDisplay
      ensures alignment == newAlignment
      ensures rangesForDetectors == old(rangesForDetectors)
      ensures TextStorageAfter(old(rangesForDetectors), old(needsDisplay), Some(attributedStringValue), false, Done)
    {
      alignment := newAlignment;
      var _ := SetTextStorage(Some(attributedStringValue), false);
    }

    /** The `lineBreakMode` observer: the text container follows; redisplay
        unless a batch is open. */
    method SetLineBreakMode(mode: LineBreakMode)
      modifies this`lineBreakMode, this`textContainerLineBreakMode, this`needsDisplay
      ensures lineBreakMode == mode && textContainerLineBreakMode == mode
      ensures needsDisplay == (old(needsDisplay) || !isConfiguring)
    {
      lineBreakMode := mode;
      textContainerLineBreakMode := lineBreakMode;
      if !isConfiguring {
        needsDisplay := true;
      }
    }

    /** The `maximumNumberOfLines` observer. */
    method SetMaximumNumberOfLines(lines: int)
      modifies this`maximumNumberOfLines, this`textContainerMaximumNumberOfLines, this`needsDisplay
      ensures maximumNumberOfLines == lines && textContainerMaximumNumberOfLines == lines
      ensures needsDisplay == (old(needsDisplay) || !isConfiguring)
    {
      maximumNumberOfLines := lines;
      textContainerMaximumNumberOfLines := maximumNumberOfLines;
      if !isConfiguring {
        needsDisplay := true;
      }
    }

    /** The `textInsets` observer. */
    method SetTextInsets(insets: NSEdgeInsets)
      modifies this`textInsets, this`needsDisplay
      ensures textInsets == insets
      ensures needsDisplay == (old(needsDisplay) || !isConfiguring)
    {
      textInsets := insets;
      if !isConfiguring {
        needsDisplay := true;
      }
    }

    /** What one assignment's observer leaves in the text storage, the range
        table and the display flag, given their values before it: text and
        detector changes reparse, font, colour and alignment changes only
        restyle, line and inset changes only redisplay, and an attribute
        change restyles its detector unless a batch is open. */
    ghost predicate ChangeStorageEffect(change: LabelChange, oldRanges: Table, oldNeedsDisplay: bool, oldStorage: StyledText, outcome: Outcome)
      reads this
    {
      match change
      case ChangeAttributedStringValue(_) | ChangeStringValue(_) | ChangeEnabledDetectors(_) =>
        TextStorageAfter(oldRanges, oldNeedsDisplay, Some(attributedStringValue), true, outcome)
      case ChangeFont(_) | ChangeTextColor(_) | ChangeAlignment(_) =>
        && outcome == Done && rangesForDetectors == oldRanges
        && TextStorageAfter(oldRanges, oldNeedsDisplay, Some(attributedStringValue), false, Done)
      case ChangeLineBreakMode(_) | ChangeMaximumNumberOfLines(_) | ChangeTextInsets(_) =>
        && outcome == Done && rangesForDetectors == oldRanges && textStorage == oldStorage
        && needsDisplay == (oldNeedsDisplay || !isConfiguring)
      case ChangeDetectorAttributes(_, detector) =>
        && outcome == Done && rangesForDetectors == oldRanges && needsDisplay == oldNeedsDisplay
        && textStorage == (if isConfiguring then oldStorage else UpdatedStorage(oldStorage, [detector]))
    }

    /** A text or detector assignment: reparse. */
    method ApplyTextChange(change: LabelChange) returns (outcome: Outcome)
      requires change.ChangeAttributedStringValue? || change.ChangeStringValue? || change.ChangeEnabledDetectors?
      modifies this`attributedStringValue, this`enabledDetectors, this`textStorage, this`rangesForDetectors, this`needsDisplay
      ensures Settings() == ChangedSettings(old(Settings()), change)
      ensures ChangeStorageEffect(change, old(rangesForDetectors), old(needsDisplay), old(textStorage), outcome)
    {
      match change {
        case ChangeAttributedStringValue(text) => outcome := SetAttributedStringValue(text);
        case ChangeStringValue(plain) => outcome := SetStringValue(plain);
        case ChangeEnabledDetectors(detectors) => outcome := SetEnabledDetectors(detectors);
      }
    }

    /** A font, colour or alignment assignment: restyle without reparsing. */
    method ApplyRestyleChange(change: LabelChange)
      requires change.ChangeFont? || change.ChangeTextColor? || change.ChangeAlignment?
      modifies this`font, this`textColor, this`alignment, this`textStorage, this`rangesForDetectors, this`needsDisplay
      ensures Settings() == ChangedSettings(old(Settings()), change)
      ensures ChangeStorageEffect(change, old(rangesForDetectors), old(needsDisplay), old(textStorage), Done)
    {
      match change {
        case ChangeFont(f) => SetFont(f);
        case ChangeTextColor(c) => SetTextColor(c);
        case ChangeAlignment(a) => SetAlignment(a);
      }
    }

    /** A line-break, line-count or inset assignment: redisplay only. */
    method ApplyLayoutChange(change: LabelChange)
      requires change.ChangeLineBreakMode? || change.ChangeMaximumNumberOfLines? || change.ChangeTextInsets?
      modifies this`lineBreakMode, this`textContainerLineBreakMode, this`maximumNumberOfLines
      modifies this`textContainerMaximumNumberOfLines, this`textInsets, this`needsDisplay
      ensures Settings() == ChangedSettings(old(Settings()), change)
      ensures ChangeStorageEffect(change, old(rangesForDetectors), old(needsDisplay), old(textStorage), Done)
    {
      match change {
        case ChangeLineBreakMode(mode) => SetLineBreakMode(mode);
        case ChangeMaximumNumberOfLines(lines) => SetMaximumNumberOfLines(lines);
        case ChangeTextInsets(insets) => SetTextInsets(insets);
      }
    }

    /** One assignment of a configure block, through its observer: the
        property changes as `ChangedSettings` says, and the text storage,
        range table and display flag as `ChangeStorageEffect` says. */
    method ApplyChange(change: LabelChange) returns (outcome: Outcome)
      modifies this`enabledDetectors, this`attributedStringValue, this`font, this`textColor, this`lineBreakMode
      modifies this`maximumNumberOfLines, this`alignment, this`textInsets, this`addressAttributes, this`dateAttributes
      modifies this`phoneNumberAttributes, this`urlAttributes, this`textStorage, this`textContainerLineBreakMode
      modifies this`textContainerMaximumNumberOfLines, this`needsDisplay, this`rangesForDetectors, this`attributesNeedUpdate
      ensures Settings() == ChangedSettings(old(Settings()), change)
      ensures attributesNeedUpdate == (old(attributesNeedUpdate) || (isConfiguring && change.ChangeDetectorAttributes?))
      ensures ChangeStorageEffect(change, old(rangesForDetectors), old(needsDisplay), old(textStorage), outcome)
    {
      outcome := Done;
      if change.ChangeAttributedStringValue? || change.ChangeStringValue? || change.ChangeEnabledDetectors? {
        outcome := ApplyTextChange(change);
      } else if change.ChangeFont? || change.ChangeTextColor? || change.ChangeAlignment? {
        ApplyRestyleChange(change);
      } else if change.ChangeLineBreakMode? || change.ChangeMaximumNumberOfLines? || change.ChangeTextInsets? {
        ApplyLayoutChange(change);
      } else {
        SetAttributes(change.attributes, change.detector);
      }
    }

    /** The assignments of a configure block, in order, with the batch open. */
    method ApplyBlock(block: seq<LabelChange>) returns (outcome: Outcome)
      requires isConfiguring && !attributesNeedUpdate && TextContainerInSync()
      modifies this`enabledDetectors, this`attributedStringValue, this`font, this`textColor, this`lineBreakMode
      modifies this`maximumNumberOfLines, this`alignment, this`textInsets, this`addressAttributes, this`dateAttributes
      modifies this`phoneNumberAttributes, this`urlAttributes, this`textStorage, this`textContainerLineBreakMode
      modifies this`textContainerMaximumNumberOfLines, this`needsDisplay, this`rangesForDetectors, this`attributesNeedUpdate
      ensures outcome.Done? ==> TextContainerInSync()
      ensures outcome.Done? ==> (attributesNeedUpdate <==> exists k :: 0 <= k < |block| && block[k].ChangeDetectorAttributes?)
      ensures outcome.Done? ==> Settings() == SettingsAfter(old(Settings()), block)
      ensures (forall k :: 0 <= k < |block| ==> block[k].ChangeDetectorAttributes?) ==>
        outcome == Done && textStorage == old(textStorage) && rangesForDetectors == old(rangesForDetectors)
    {
      outcome := Done;
      for i := 0 to |block|
        invariant outcome == Done && TextContainerInSync()
        invariant attributesNeedUpdate <==> exists k :: 0 <= k < i && block[k].ChangeDetectorAttributes?
        invariant Settings() == SettingsAfter(old(Settings()), block[..i])
        invariant (forall k :: 0 <= k < i ==> block[k].ChangeDetectorAttributes?) ==>
          textStorage == old(textStorage) && rangesForDetectors == old(rangesForDetectors)
      {
        assert block[..i + 1][..i] == block[..i];
        outcome := ApplyChange(block[i]);
        if outcome.Fatal? {
          assert !block[i].ChangeDetectorAttributes?;
          return;
        }
      }
      assert block[..|block|] == block;
    }

    /** The end of `configure(block:)`: the pending update, if any, restyles
        the enabled detectors once; then the batch closes and the label
        redisplays. */
    method FinishBatch() returns (ghost updated: bool)
      requires isConfiguring
      modifies this`textStorage, this`attributesNeedUpdate, this`isConfiguring, this`needsDisplay
      ensures updated == old(attributesNeedUpdate)
      ensures !isConfiguring && !attributesNeedUpdate && needsDisplay
      ensures textStorage == if updated then UpdatedStorage(old(textStorage), enabledDetectors) else old(textStorage)
    {
      updated := attributesNeedUpdate;
      if attributesNeedUpdate {
        UpdateAttributes(enabledDetectors);
      }
      attributesNeedUpdate := false;
      isConfiguring := false;
      needsDisplay := true;
    }

    /** `configure(block:)`: the block's assignments run with the batch open,
        then `FinishBatch` closes it. `updated` records whether the pending
        update ran and `blockStorage` the text storage the block itself
        left. */
    method Configure(block: seq<LabelChange>) returns (outcome: Outcome, ghost updated: bool, ghost blockStorage: StyledText)
      requires Valid()
      modifies this`enabledDetectors, this`attributedStringValue, this`font, this`textColor, this`lineBreakMode
      modifies this`maximumNumberOfLines, this`alignment, this`textInsets, this`addressAttributes, this`dateAttributes
      modifies this`phoneNumberAttributes, this`urlAttributes, this`textStorage, this`textContainerLineBreakMode
      modifies this`textContainerMaximumNumberOfLines, this`needsDisplay, this`rangesForDetectors, this`attributesNeedUpdate
      modifies this`isConfiguring
      ensures outcome.Done? ==> Valid() && needsDisplay
      ensures outcome.Done? ==> (updated <==> exists k :: 0 <= k < |block| && block[k].ChangeDetectorAttributes?)
      ensures outcome.Done? ==> Settings() == SettingsAfter(old(Settings()), block)
      ensures outcome.Done? ==>
        textStorage == (if updated then UpdatedStorage(blockStorage, enabledDetectors) else blockStorage)
      ensures (forall k :: 0 <= k < |block| ==> block[k].ChangeDetectorAttributes?) ==>
        outcome == Done && blockStorage == old(textStorage) && rangesForDetectors == old(rangesForDetectors)
    {
      updated := false;
      blockStorage := textStorage;
      isConfiguring := true;
      outcome := ApplyBlock(block);
      if outcome.Fatal? {
        return;
      }
      blockStorage := textStorage;
      updated := FinishBatch();
    }

    /** `handleGesture(_:)`, given the character index under the click (nil
        when the glyph lookup finds none): true exactly when some stored range
        contains it, reporting the payload of the first such range in the
        table's order. */
    method HandleGesture(characterIndex: Option<nat>) returns (handled: bool, selection: Option<Selection>)
      ensures characterIndex.None? ==> !handled && selection.None?
      ensures characterIndex.Some? ==> (handled <==> exists k, m :: HitAt(rangesForDetectors, characterIndex.value, k, m))
      ensures handled ==> characterIndex.Some? && exists k, m ::
        && HitAt(rangesForDetectors, characterIndex.value, k, m)
        && (forall k', m' :: HitAt(rangesForDetectors, characterIndex.value, k', m') ==> k < k' || (k == k' && m <= m'))
        && selection == SelectionFor(rangesForDetectors[CanonicalOrder[k]][m].value)
      ensures !handled ==> selection.None?
    {
      if characterIndex.None? {
        return false, None;
      }
      var index := characterIndex.value;
      for k := 0 to |CanonicalOrder|
        invariant forall k', m' :: HitAt(rangesForDetectors, index, k', m') ==> k' >= k
      {
        var detectorType := CanonicalOrder[k];
        if detectorType in rangesForDetectors {
          var ranges := rangesForDetectors[detectorType];
          for m := 0 to |ranges|
            invariant forall k', m' :: HitAt(rangesForDetectors, index, k', m') ==> k' > k || (k' == k && m' >= m)
          {
            if ranges[m].range.Contains(index) {
              assert HitAt(rangesForDetectors, index, k, m);
              return true, SelectionFor(ranges[m].value);
            }
          }
        }
      }
      return false, None;
    }
  }
}
