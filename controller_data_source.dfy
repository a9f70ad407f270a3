// The collection-view data-source side of MessagesViewController: section
// and item counts, the item class each message kind is shown with, and the
// header and footer views.
module ControllerDataSource {
  import opened Kit
  import opened Collaborators

  /** `numberOfSections(in:)`: the data source's count, 0 without one;
      fatal for a foreign collection view. */
  function NumberOfSections(collectionView: CollectionViewArgument): (r: Result<int>)
    ensures collectionView.ForeignCollectionView? <==> r == Failure(NotMessagesCollectionView)
    ensures collectionView.MessagesView? && collectionView.view.messagesDataSource.None? ==> r == Success(0)
    ensures collectionView.MessagesView? && collectionView.view.messagesDataSource.Some? ==>
      r == Success(collectionView.view.messagesDataSource.value.numberOfSections)
  {
    match collectionView
    case ForeignCollectionView => Failure(NotMessagesCollectionView)
    case MessagesView(view) =>
      Success(if view.messagesDataSource.Some? then view.messagesDataSource.value.numberOfSections else 0)
  }

  /** `numberOfItemsInSection`: the same guard and default. */
  function NumberOfItems(collectionView: CollectionViewArgument, section: int): (r: Result<int>)
    ensures collectionView.ForeignCollectionView? <==> r == Failure(NotMessagesCollectionView)
    ensures collectionView.MessagesView? && collectionView.view.messagesDataSource.None? ==> r == Success(0)
    ensures collectionView.MessagesView? && collectionView.view.messagesDataSource.Some? ==>
      r == Success(collectionView.view.messagesDataSource.value.numberOfItems(section))
  {
    match collectionView
    case ForeignCollectionView => Failure(NotMessagesCollectionView)
    case MessagesView(view) =>
      Success(if view.messagesDataSource.Some? then view.messagesDataSource.value.numberOfItems(section) else 0)
  }

  /** The framework's item classes. */
  datatype ItemClass = TextMessageItem | MediaMessageItem | LocationMessageItem

  /** What `itemForRepresentedObjectAt` returns: an item of a framework class
      made for the index path and configured with the message, or the data
      source's own item for a custom message, which the framework does not
      configure. */
  datatype ItemChoice =
    | ConfiguredItem(itemClass: ItemClass, message: Message, indexPath: IndexPath)
    | CustomItem(handle: ItemHandle)

  /** The item class of each built-in kind; a custom kind has none. */
  function ItemClassFor(kind: MessageKind): (c: Option<ItemClass>)
    ensures kind.Text? || kind.AttributedText? || kind.Emoji? ==> c == Some(TextMessageItem)
    ensures kind.Photo? || kind.Video? ==> c == Some(MediaMessageItem)
    ensures kind.Location? ==> c == Some(LocationMessageItem)
    ensures c.None? <==> kind.Custom?
  {
    match kind
    case Text(_) => Some(TextMessageItem)
    case AttributedText(_) => Some(TextMessageItem)
    case Emoji(_) => Some(TextMessageItem)
    case Photo(_) => Some(MediaMessageItem)
    case Video(_) => Some(MediaMessageItem)
    case Location(_) => Some(LocationMessageItem)
    case Custom(_) => None
  }

  /** `itemForRepresentedObjectAt`: fatal for a foreign collection view or a
      missing data source; otherwise the item for the message's kind. A
      built-in item is configured at once, and that configuration stops
      without a display delegate; a custom item is not configured here. */
  function ItemForRepresentedObject(collectionView: CollectionViewArgument, indexPath: IndexPath): (r: Result<ItemChoice>)
    ensures collectionView.ForeignCollectionView? ==> r == Failure(NotMessagesCollectionView)
    ensures collectionView.MessagesView? && collectionView.view.messagesDataSource.None? ==> r == Failure(NilMessagesDataSource)
    ensures collectionView.MessagesView? && collectionView.view.messagesDataSource.Some? ==>
      var dataSource := collectionView.view.messagesDataSource.value;
      var message := dataSource.messageForItem(indexPath);
      && (message.kind.Custom? ==> r == Success(CustomItem(dataSource.customItem(message, indexPath))))
      && (!message.kind.Custom? && collectionView.view.messagesDisplayDelegate.None? ==>
            r == Failure(NilMessagesDisplayDelegate))
      && (!message.kind.Custom? && collectionView.view.messagesDisplayDelegate.Some? ==>
            r == Success(ConfiguredItem(ItemClassFor(message.kind).value, message, indexPath)))
  {
    match collectionView
    case ForeignCollectionView => Failure(NotMessagesCollectionView)
    case MessagesView(view) =>
      match view.messagesDataSource
      case None => Failure(NilMessagesDataSource)
      case Some(dataSource) =>
        var message := dataSource.messageForItem(indexPath);
        match message.kind
        case Text(_) => Configured(view, TextMessageItem, message, indexPath)
        case AttributedText(_) => Configured(view, TextMessageItem, message, indexPath)
        case Emoji(_) => Configured(view, TextMessageItem, message, indexPath)
        case Photo(_) => Configured(view, MediaMessageItem, message, indexPath)
        case Video(_) => Configured(view, MediaMessageItem, message, indexPath)
        case Location(_) => Configured(view, LocationMessageItem, message, indexPath)
        case Custom(_) => Success(CustomItem(dataSource.customItem(message, indexPath)))
  }

  /** A built-in item after `configure(with:at:and:)`, whose display-delegate
      guard is the one a caller with a data source can still reach. */
  function Configured(view: MessagesCollectionView, itemClass: ItemClass, message: Message, indexPath: IndexPath): Result<ItemChoice> {
    if view.messagesDisplayDelegate.None? then Failure(NilMessagesDisplayDelegate)
    else Success(ConfiguredItem(itemClass, message, indexPath))
  }

  /** NSCollectionView.SupplementaryElementKind. */
  datatype SupplementaryElementKind = SectionHeader | SectionFooter | OtherElementKind(name: string)

  /** `viewForSupplementaryElementOfKind`: headers and footers come from the
      display delegate; fatal for a foreign collection view, a missing
      display delegate or any other kind. */
  function SupplementaryView(collectionView: CollectionViewArgument, kind: SupplementaryElementKind, indexPath: IndexPath): (r: Result<ViewHandle>)
    ensures collectionView.ForeignCollectionView? ==> r == Failure(NotMessagesCollectionView)
    ensures collectionView.MessagesView? && collectionView.view.messagesDisplayDelegate.None? ==>
      r == Failure(NilMessagesDisplayDelegate)
    ensures collectionView.MessagesView? && collectionView.view.messagesDisplayDelegate.Some? ==>
      var displayDelegate := collectionView.view.messagesDisplayDelegate.value;
      && (kind.SectionHeader? ==> r == Success(displayDelegate.messageHeaderView(indexPath)))
      && (kind.SectionFooter? ==> r == Success(displayDelegate.messageFooterView(indexPath)))
      && (kind.OtherElementKind? ==> r == Failure(UnrecognizedSectionKind))
  {
    match collectionView
    case ForeignCollectionView => Failure(NotMessagesCollectionView)
    case MessagesView(view) =>
      match view.messagesDisplayDelegate
      case None => Failure(NilMessagesDisplayDelegate)
      case Some(displayDelegate) =>
        match kind
        case SectionHeader => Success(displayDelegate.messageHeaderView(indexPath))
        case SectionFooter => Success(displayDelegate.messageFooterView(indexPath))
        case OtherElementKind(_) => Failure(UnrecognizedSectionKind)
  }

  /** A missing data source stops item creation but not supplementary views:
      the header and footer callbacks need only the display delegate. */
  lemma EachCallbackNeedsItsOwnCollaborator(view: MessagesCollectionView, indexPath: IndexPath, kind: SupplementaryElementKind)
    requires view.messagesDataSource.None? && view.messagesDisplayDelegate.Some? && !kind.OtherElementKind?
    ensures ItemForRepresentedObject(MessagesView(view), indexPath).Failure?
    ensures SupplementaryView(MessagesView(view), kind, indexPath).Success?
  {
  }

  /** A missing display delegate stops supplementary views and every
      built-in item, but a data source's custom item is still returned. */
  lemma OnlyCustomItemsNeedNoDisplayDelegate(view: MessagesCollectionView, indexPath: IndexPath, kind: SupplementaryElementKind)
    requires view.messagesDataSource.Some? && view.messagesDisplayDelegate.None?
    ensures SupplementaryView(MessagesView(view), kind, indexPath) == Failure(NilMessagesDisplayDelegate)
    ensures ItemForRepresentedObject(MessagesView(view), indexPath).Success?
      <==> view.messagesDataSource.value.messageForItem(indexPath).kind.Custom?
  {
  }
}
