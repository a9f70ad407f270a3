// MessagesCollectionViewFlowLayout: the adapter between the toolkit's flow
// layout and the per-kind size calculators. It picks a calculator for each
// item from the message's kind, forwards sizing and attribute configuration
// to it, decides when a bounds change invalidates the layout, and broadcasts
// style settings to its six built-in calculators.
module FlowLayout {
  import opened Kit
  import opened EdgeInsets
  import opened Calculators
  import opened Collaborators

  /** The NSCollectionView the layout is attached to; `messages` is None when
      it is not a MessagesCollectionView. */
  datatype HostCollectionView = HostCollectionView(frame: Rect, bounds: Rect, messages: Option<MessagesCollectionView>)

  /** The section inset `setupView` installs: top 4, left 8, bottom 4, right 8. */
  const DefaultSectionInset := NSEdgeInsets(4.0, 8.0, 4.0, 8.0)

  /** One element of the toolkit's attribute list: its category, its index
      path (absent for some supplementary elements) and its attributes object. */
  datatype LayoutElement = LayoutElement(category: ElementCategory, indexPath: Option<IndexPath>, attributes: CollectionLayoutAttributes)

  /** The invalidation context the toolkit creates for a bounds change. */
  datatype InvalidationContext =
    | FlowLayoutContext(invalidateFlowLayoutDelegateMetrics: bool)
    | OtherContext

  /** The six built-in calculators, in the order `messageSizeCalculators()`
      lists them. */
  datatype BuiltInCalculator = TextSlot | AttributedTextSlot | EmojiSlot | PhotoSlot | VideoSlot | LocationSlot {
    /** The message kind each built-in calculator serves. */
    function Serves(): MessageKindTag {
      match this
      case TextSlot => TextKind
      case AttributedTextSlot => AttributedTextKind
      case EmojiSlot => EmojiKind
      case PhotoSlot => PhotoKind
      case VideoSlot => VideoKind
      case LocationSlot => LocationKind
    }
  }

  /** The switch of `cellSizeCalculatorForItem(at:)` without its custom case:
      each built-in kind has a calculator of its own, and only custom
      messages go to the layout delegate. */
  function BuiltInFor(kind: MessageKind): (r: Option<BuiltInCalculator>)
    ensures r.None? <==> kind.Tag() == CustomKind
    ensures r.Some? ==> r.value.Serves() == kind.Tag()
  {
    match kind
    case Text(_) => Some(TextSlot)
    case AttributedText(_) => Some(AttributedTextSlot)
    case Emoji(_) => Some(EmojiSlot)
    case Photo(_) => Some(PhotoSlot)
    case Video(_) => Some(VideoSlot)
    case Location(_) => Some(LocationSlot)
    case Custom(_) => None
  }

  /** Two messages share a built-in calculator exactly when they are of the
      same kind. */
  lemma BuiltInDispatchSeparatesKinds(a: MessageKind, b: MessageKind)
    requires BuiltInFor(a).Some? && BuiltInFor(b).Some?
    ensures BuiltInFor(a) == BuiltInFor(b) <==> a.Tag() == b.Tag()
  {
    if a.Tag() == b.Tag() {
      assert BuiltInFor(a).value.Serves() == BuiltInFor(b).value.Serves();
    }
  }

  class MessagesCollectionViewFlowLayout {
    var collectionView: Option<HostCollectionView>
    var sectionInset: NSEdgeInsets

    const textMessageSizeCalculator: CellSizeCalculator
    const attributedTextMessageSizeCalculator: CellSizeCalculator
    const emojiMessageSizeCalculator: CellSizeCalculator
    const photoMessageSizeCalculator: CellSizeCalculator
    const videoMessageSizeCalculator: CellSizeCalculator
    const locationMessageSizeCalculator: CellSizeCalculator

    /** The six built-in calculators are six distinct objects. */
    ghost predicate Valid() {
      && textMessageSizeCalculator != attributedTextMessageSizeCalculator
      && textMessageSizeCalculator != emojiMessageSizeCalculator
      && textMessageSizeCalculator != photoMessageSizeCalculator
      && textMessageSizeCalculator != videoMessageSizeCalculator
      && textMessageSizeCalculator != locationMessageSizeCalculator
      && attributedTextMessageSizeCalculator != emojiMessageSizeCalculator
      && attributedTextMessageSizeCalculator != photoMessageSizeCalculator
      && attributedTextMessageSizeCalculator != videoMessageSizeCalculator
      && attributedTextMessageSizeCalculator != locationMessageSizeCalculator
      && emojiMessageSizeCalculator != photoMessageSizeCalculator
      && emojiMessageSizeCalculator != videoMessageSizeCalculator
      && emojiMessageSizeCalculator != locationMessageSizeCalculator
      && photoMessageSizeCalculator != videoMessageSizeCalculator
      && photoMessageSizeCalculator != locationMessageSizeCalculator
      && videoMessageSizeCalculator != locationMessageSizeCalculator
    }

    /** `messageSizeCalculators()`. */
    function MessageSizeCalculators(): seq<CellSizeCalculator> {
      [textMessageSizeCalculator, attributedTextMessageSizeCalculator, emojiMessageSizeCalculator,
       photoMessageSizeCalculator, videoMessageSizeCalculator, locationMessageSizeCalculator]
    }

    function BuiltIns(): set<CellSizeCalculator> {
      set c | c in MessageSizeCalculators()
    }

    function Calculator(slot: BuiltInCalculator): CellSizeCalculator {
      match slot
      case TextSlot => textMessageSizeCalculator
      case AttributedTextSlot => attributedTextMessageSizeCalculator
      case EmojiSlot => emojiMessageSizeCalculator
      case PhotoSlot => photoMessageSizeCalculator
      case VideoSlot => videoMessageSizeCalculator
      case LocationSlot => locationMessageSizeCalculator
    }

    /** `init()`: `setupView` installs the default section inset; the lazily
        created calculators are created here, the emoji one with twice the
        default message font size. */
    constructor (defaults: Style)
      ensures Valid() && fresh(BuiltIns())
      ensures collectionView == None && sectionInset == DefaultSectionInset
      ensures textMessageSizeCalculator.family == TextMessageSizing && textMessageSizeCalculator.style == defaults
      ensures attributedTextMessageSizeCalculator.family == TextMessageSizing && attributedTextMessageSizeCalculator.style == defaults
      ensures emojiMessageSizeCalculator.family == TextMessageSizing
      ensures emojiMessageSizeCalculator.style == defaults.(messageLabelFontSize := 2.0 * defaults.messageLabelFontSize)
      ensures photoMessageSizeCalculator.family == MediaMessageSizing && photoMessageSizeCalculator.style == defaults
      ensures videoMessageSizeCalculator.family == MediaMessageSizing && videoMessageSizeCalculator.style == defaults
      ensures locationMessageSizeCalculator.family == LocationMessageSizing && locationMessageSizeCalculator.style == defaults
    {
      collectionView := None;
      sectionInset := NSEdgeInsets(4.0, 8.0, 4.0, 8.0);
      textMessageSizeCalculator := new CellSizeCalculator(TextMessageSizing, defaults);
      attributedTextMessageSizeCalculator := new CellSizeCalculator(TextMessageSizing, defaults);
      var emoji := new CellSizeCalculator(TextMessageSizing, defaults);
      emoji.style := emoji.style.(messageLabelFontSize := emoji.style.messageLabelFontSize * 2.0);
      emojiMessageSizeCalculator := emoji;
      photoMessageSizeCalculator := new CellSizeCalculator(MediaMessageSizing, defaults);
      videoMessageSizeCalculator := new CellSizeCalculator(MediaMessageSizing, defaults);
      locationMessageSizeCalculator := new CellSizeCalculator(LocationMessageSizing, defaults);
    }

    /** `itemWidth`: the collection view's frame width minus the left and
        right section insets, or 0 without a collection view. */
    function ItemWidth(): real
      reads this
    {
      match collectionView
      case None => 0.0
      case Some(cv) => cv.frame.Width() - sectionInset.left - sectionInset.right
    }

    /** The `messagesCollectionView` getter: fatal unless the layout sits in a
        MessagesCollectionView. */
    function MessagesCollectionViewOf(): Result<MessagesCollectionView>
      reads this
    {
      if collectionView.Some? && collectionView.value.messages.Some?
      then Success(collectionView.value.messages.value)
      else Failure(LayoutUsedOnForeignType)
    }

    /** The `messagesDataSource` getter. */
    function MessagesDataSourceOf(): Result<MessagesDataSource>
      reads this
    {
      match MessagesCollectionViewOf()
      case Failure(e) => Failure(e)
      case Success(mcv) =>
        if mcv.messagesDataSource.Some? then Success(mcv.messagesDataSource.value)
        else Failure(NilMessagesDataSource)
    }

    /** `cellSizeCalculatorForItem(at:)`: the built-in calculator of the
        message's kind, or for a custom message the layout delegate's
        calculator; fatal without the collaborators it consults. */
    function CellSizeCalculatorForItem(indexPath: IndexPath): (r: Result<CellSizeCalculator>)
      reads this
      ensures MessagesDataSourceOf().Failure? ==> r == Failure(MessagesDataSourceOf().error)
      ensures MessagesDataSourceOf().Success? ==>
        var message := MessagesDataSourceOf().value.messageForItem(indexPath);
        && (message.kind.Tag() != CustomKind ==>
              r.Success? && r.value in BuiltIns() && r.value == Calculator(BuiltInFor(message.kind).value))
        && (message.kind.Tag() == CustomKind ==>
              match MessagesCollectionViewOf().value.messagesLayoutDelegate
              case None => r == Failure(NilMessagesLayoutDelegate)
              case Some(delegate) => r == Success(delegate.customCellSizeCalculator(message, indexPath)))
    {
      match MessagesDataSourceOf()
      case Failure(e) => Failure(e)
      case Success(dataSource) =>
        var message := dataSource.messageForItem(indexPath);
        match BuiltInFor(message.kind)
        case Some(slot) => Success(Calculator(slot))
        case None =>
          match MessagesCollectionViewOf().value.messagesLayoutDelegate
          case None => Failure(NilMessagesLayoutDelegate)
          case Some(delegate) => Success(delegate.customCellSizeCalculator(message, indexPath))
    }

    /** `sizeForItem(at:)`: whatever the dispatched calculator answers. */
    method SizeForItem(indexPath: IndexPath, oracle: SizingOracle) returns (r: Result<Size>)
      ensures match CellSizeCalculatorForItem(indexPath)
              case Success(c) => r == Success(oracle.sizeForItem(c.family, c.style, indexPath))
              case Failure(e) => r == Failure(e)
    {
      var calculator := CellSizeCalculatorForItem(indexPath);
      if calculator.Failure? {
        return Failure(calculator.error);
      }
      r := Success(oracle.sizeForItem(calculator.value.family, calculator.value.style, indexPath));
    }

    /** `shouldInvalidateLayout(forBoundsChange:)`: compares the old and new
        bounds widths; with no collection view, Swift's optional comparison
        makes the answer true. */
    function ShouldInvalidateLayout(newBounds: Rect): bool
      reads this
    {
      match collectionView
      case None => true
      case Some(cv) => cv.bounds.Width() != newBounds.Width()
    }

    /** `invalidationContext(forBoundsChange:)`: a flow-layout context gets its
        delegate-metrics flag from `shouldInvalidateLayout`; any other context
        is returned as it is. */
    function InvalidationContextFor(context: InvalidationContext, newBounds: Rect): (r: InvalidationContext)
      reads this
      ensures context.OtherContext? ==> r == context
      ensures context.FlowLayoutContext? ==> r.FlowLayoutContext? && r.invalidateFlowLayoutDelegateMetrics == ShouldInvalidateLayout(newBounds)
    {
      match context
      case OtherContext => context
      case FlowLayoutContext(_) => FlowLayoutContext(ShouldInvalidateLayout(newBounds))
    }

    /** The shared body of the `setMessage*` setters: `forEach` over
        `messageSizeCalculators()`, writing one style field on each. */
    method Broadcast(setting: StyleSetting)
      requires Valid()
      modifies BuiltIns()
      ensures textMessageSizeCalculator.style == old(textMessageSizeCalculator.style).With(setting)
      ensures attributedTextMessageSizeCalculator.style == old(attributedTextMessageSizeCalculator.style).With(setting)
      ensures emojiMessageSizeCalculator.style == old(emojiMessageSizeCalculator.style).With(setting)
      ensures photoMessageSizeCalculator.style == old(photoMessageSizeCalculator.style).With(setting)
      ensures videoMessageSizeCalculator.style == old(videoMessageSizeCalculator.style).With(setting)
      ensures locationMessageSizeCalculator.style == old(locationMessageSizeCalculator.style).With(setting)
    {
      var calculators := MessageSizeCalculators();
      for i := 0 to |calculators|
        invariant forall j :: 0 <= j < i ==> calculators[j].style == old(calculators[j].style).With(setting)
        invariant forall j :: i <= j < |calculators| ==> calculators[j].style == old(calculators[j].style)
      {
        calculators[i].style := calculators[i].style.With(setting);
      }
      assert calculators[0] == textMessageSizeCalculator && calculators[1] == attributedTextMessageSizeCalculator;
      assert calculators[2] == emojiMessageSizeCalculator;
      assert calculators[3] == photoMessageSizeCalculator && calculators[4] == videoMessageSizeCalculator;
      assert calculators[5] == locationMessageSizeCalculator;
    }

    /** `layoutAttributesForElements(in:)`: when every attribute object the
        toolkit produced is a MessagesCollectionViewLayoutAttributes, each one
        of the item category that has an index path is configured by its
        calculator and every other element is passed through; otherwise the
        result is empty. */
    method LayoutAttributesForElements(elements: seq<LayoutElement>, oracle: SizingOracle) returns (r: Result<seq<LayoutElement>>)
      ensures !AllMessagesAttributes(elements) ==> r == Success([])
      ensures AllMessagesAttributes(elements) && r.Success? ==>
        && |r.value| == |elements|
        && forall i :: 0 <= i < |elements| ==>
             if Configures(elements[i]) then
               && CellSizeCalculatorForItem(elements[i].indexPath.value).Success?
               && var c := CellSizeCalculatorForItem(elements[i].indexPath.value).value;
                  r.value[i] == Configured(elements[i], c.family, c.style, oracle)
             else r.value[i] == elements[i]
      ensures AllMessagesAttributes(elements) && r.Failure? ==>
        exists i :: 0 <= i < |elements| && Configures(elements[i])
          && CellSizeCalculatorForItem(elements[i].indexPath.value) == Failure(r.error)
      ensures AllMessagesAttributes(elements)
        && (forall i :: 0 <= i < |elements| && Configures(elements[i]) ==> CellSizeCalculatorForItem(elements[i].indexPath.value).Success?)
        ==> r.Success?
    {
      if !AllMessagesAttributes(elements) {
        return Success([]);
      }
      var configured: seq<LayoutElement> := [];
      for i := 0 to |elements|
        invariant |configured| == i
        invariant forall k :: 0 <= k < i ==>
             if Configures(elements[k]) then
               && CellSizeCalculatorForItem(elements[k].indexPath.value).Success?
               && var c := CellSizeCalculatorForItem(elements[k].indexPath.value).value;
                  configured[k] == Configured(elements[k], c.family, c.style, oracle)
             else configured[k] == elements[k]
      {
        var e := elements[i];
        if Configures(e) {
          var calculator := CellSizeCalculatorForItem(e.indexPath.value);
          if calculator.Failure? {
            return Failure(calculator.error);
          }
          configured := configured + [Configured(e, calculator.value.family, calculator.value.style, oracle)];
        } else {
          configured := configured + [e];
        }
      }
      r := Success(configured);
    }

    /** `layoutAttributesForItem(at:)`: the single-item form of the same rule;
        nil when the toolkit's attributes are not the framework's subclass. */
    method LayoutAttributesForItem(element: Option<LayoutElement>, oracle: SizingOracle) returns (r: Result<Option<LayoutElement>>)
      ensures element.None? || !element.value.attributes.MessagesAttributes? ==> r == Success(None)
      ensures element.Some? && element.value.attributes.MessagesAttributes? && !Configures(element.value) ==> r == Success(element)
      ensures element.Some? && Configures(element.value) ==>
        match CellSizeCalculatorForItem(element.value.indexPath.value)
        case Success(c) => r == Success(Some(Configured(element.value, c.family, c.style, oracle)))
        case Failure(err) => r == Failure(err)
    {
      if element.None? || !element.value.attributes.MessagesAttributes? {
        return Success(None);
      }
      var e := element.value;
      if !Configures(e) {
        return Success(element);
      }
      var calculator := CellSizeCalculatorForItem(e.indexPath.value);
      if calculator.Failure? {
        return Failure(calculator.error);
      }
      r := Success(Some(Configured(e, calculator.value.family, calculator.value.style, oracle)));
    }
  }

  /** The downcast `as? [MessagesCollectionViewLayoutAttributes]` succeeds. */
  predicate AllMessagesAttributes(elements: seq<LayoutElement>) {
    forall i :: 0 <= i < |elements| ==> elements[i].attributes.MessagesAttributes?
  }

  /** The elements a calculator configures: items of the framework's
      attributes class that carry an index path. */
  predicate Configures(e: LayoutElement) {
    e.category == ItemCategory && e.indexPath.Some? && e.attributes.MessagesAttributes?
  }

  /** The element after `configure(attributes:)` of a calculator of the given
      class and style. */
  function Configured(e: LayoutElement, family: CalculatorFamily, style: Style, oracle: SizingOracle): (r: LayoutElement)
    requires e.attributes.MessagesAttributes? && e.indexPath.Some?
    ensures r.category == e.category && r.indexPath == e.indexPath
  {
    e.(attributes := MessagesAttributes(oracle.configure(family, style, e.indexPath.value, e.attributes.attributes)))
  }

  /** With the default section inset, an item is 16 points narrower than the
      collection view's frame. */
  lemma DefaultItemWidth(layout: MessagesCollectionViewFlowLayout)
    requires layout.sectionInset == DefaultSectionInset && layout.collectionView.Some?
    ensures layout.ItemWidth() == layout.collectionView.value.frame.Width() - 16.0
    ensures layout.ItemWidth() == layout.collectionView.value.frame.Width() - DefaultSectionInset.Horizontal()
  {
  }

  /** Without a collection view the item width is 0. */
  lemma ItemWidthWithoutCollectionView(layout: MessagesCollectionViewFlowLayout)
    requires layout.collectionView.None?
    ensures layout.ItemWidth() == 0.0
  {
  }

  /** A bounds change that keeps the width (a height-only change) never
      invalidates; one that changes the width always does. */
  lemma InvalidationFollowsWidth(layout: MessagesCollectionViewFlowLayout, newBounds: Rect)
    requires layout.collectionView.Some?
    ensures newBounds.size.width == layout.collectionView.value.bounds.size.width ==> !layout.ShouldInvalidateLayout(newBounds)
    ensures layout.ShouldInvalidateLayout(newBounds) <==> layout.collectionView.value.bounds.Width() != newBounds.Width()
  {
  }
}
