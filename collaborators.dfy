// The application-supplied collaborators the core consults: the messages
// data source, the display and layout delegates, and the collection view
// that holds (weak) references to them. Each protocol becomes a record of
// the functions the modelled code calls.
module Collaborators {
  import opened Kit
  import opened Calculators

  /** Opaque handles for items, supplementary views and cell delegates the
      application creates. */
  datatype ItemHandle = ItemHandle(id: nat)
  datatype ViewHandle = ViewHandle(id: nat)
  datatype CellDelegate = CellDelegate(id: nat)

  datatype MessagesDataSource = MessagesDataSource(
    numberOfSections: int,
    numberOfItems: int -> int,
    messageForItem: IndexPath -> Message,
    cellTopLabelAttributedText: (Message, IndexPath) -> Option<AttributedString>,
    cellBottomLabelAttributedText: (Message, IndexPath) -> Option<AttributedString>,
    messageTopLabelAttributedText: (Message, IndexPath) -> Option<AttributedString>,
    messageBottomLabelAttributedText: (Message, IndexPath) -> Option<AttributedString>,
    customItem: (Message, IndexPath) -> ItemHandle)

  datatype MessagesDisplayDelegate = MessagesDisplayDelegate(
    backgroundColor: (Message, IndexPath) -> Color,
    messageStyle: (Message, IndexPath) -> MessageStyle,
    messageHeaderView: IndexPath -> ViewHandle,
    messageFooterView: IndexPath -> ViewHandle)

  datatype MessagesLayoutDelegate = MessagesLayoutDelegate(
    customCellSizeCalculator: (Message, IndexPath) -> CellSizeCalculator,
    headerViewSize: int -> Size,
    footerViewSize: int -> Size)

  /** A MessagesCollectionView's collaborator references; each may be nil. */
  datatype MessagesCollectionView = MessagesCollectionView(
    messagesDataSource: Option<MessagesDataSource>,
    messagesDisplayDelegate: Option<MessagesDisplayDelegate>,
    messagesLayoutDelegate: Option<MessagesLayoutDelegate>,
    messageCellDelegate: Option<CellDelegate>)

  /** The `collectionView` argument of a data-source or delegate callback:
      a MessagesCollectionView, or some other NSCollectionView. */
  datatype CollectionViewArgument = MessagesView(view: MessagesCollectionView) | ForeignCollectionView
}
