# MessageKit-macOS core, modelled in Dafny

This project models the parts of MessageKit-macOS that decide things. MessageKit-macOS is a chat-UI framework for AppKit. The model covers:

- **Cell geometry.** `MessageContentItem.apply` places the message container first, then the message bottom label, the cell top label, the message top label and the avatar, from a layout-attributes record. `CGFloat` values are `real`s.
- **The flow layout.** `MessagesCollectionViewFlowLayout` sends each message kind to its own size calculator and invalidates only on width changes. It also computes the item width, broadcasts style settings to its six built-in calculators, and configures item attributes.
- **MessageLabel.** It groups data-detector results into a range table per detector type. Property changes reparse or only restyle the text. `configure(block:)` and `setAttributes` batch deferred updates. A click is hit-tested against the stored ranges.
- **MessageCollectionViewItem.** Its frames are copied from the attributes, its labels cleared for reuse and configured from the data source.
- **The view controller's callbacks.** These are the delegate and data-source functions of `MessagesViewController`:
  - the context menu and what it copies;
  - header and footer sizes;
  - section and item counts;
  - the item class chosen for each message kind;
  - supplementary views.
- **Value helpers.** The `NSEdgeInsets` helpers and the `NSTextAlignment` to layer-alignment mapping.
- **The example app's `GrowingTextField`.** Its cached, clamped intrinsic height.

The Swift `fatalError` calls become `Result.Failure(error)` or `Outcome.Fatal(error)`, using the `MessageKitError` values of module `Kit`. Objects whose fields the code updates, such as items, the label, the layout, the controller, the text field and the size calculators, are classes. Their methods state the whole new state. The geometry, the dispatch switches and the controller's data-source callbacks are functions with lemmas about them.

Modules and files:

| file | module | models |
|---|---|---|
| kit.dfy | Kit | shared records: geometry, messages, attributes, errors |
| edge_insets.dfy | EdgeInsets | Sources/Extensions/NSEdgeInsets+Extensions.swift |
| text_alignment.dfy | TextAlignment | Sources/Extensions/NSTextAlignment+Extensions.swift |
| calculators.dfy | Calculators | the size calculators' style fields; their sizing is an input |
| collaborators.dfy | Collaborators | the data source, display delegate and layout delegate as records of functions |
| flow_layout.dfy | FlowLayout | Sources/Layout/MessagesCollectionViewFlowLayout.swift |
| content_item.dfy | ContentItem | Sources/Views/Cells/MessageContentItem.swift |
| collection_item.dfy | CollectionItem | Sources/Views/Cells/MessageCollectionViewItem.swift |
| message_label.dfy | Label | Sources/Views/MessageLabel.swift |
| controller_delegate.dfy | ControllerDelegate | Sources/Controllers/MessagesViewController+Delegate.swift |
| controller_data_source.dfy | ControllerDataSource | Sources/Controllers/MessagesViewController+DataSource.swift |
| growing_text_field.dfy | GrowingText | Example/Sources/GrowingTextField.swift |

## Model

| member | source | states |
|---|---|---|
| EdgeInsets.InsetsWith | Sources/Extensions/NSEdgeInsets+Extensions.swift:21-23 | the reordering initializer stores each argument in the field of the same name |
| EdgeInsets.InitFeedsVerticalAndHorizontal | Sources/Extensions/NSEdgeInsets+Extensions.swift:13-19 | `vertical` is top + bottom and `horizontal` is left + right of the inset built from the arguments |
| EdgeInsets.DefaultInsetsAreZero | Sources/Extensions/NSEdgeInsets+Extensions.swift:21-23 | every argument defaults to 0, so the default inset is zero with zero vertical and horizontal totals |
| EdgeInsets.EqualIsFieldwise | Sources/Extensions/NSEdgeInsets+Extensions.swift:26-30 | `==` holds iff all four fields are equal |
| EdgeInsets.EqualIsEquivalence | Sources/Extensions/NSEdgeInsets+Extensions.swift:26-30 | `==` is reflexive, symmetric and transitive |
| EdgeInsets.EqualInsetsHaveEqualTotals | Sources/Extensions/NSEdgeInsets+Extensions.swift:13-30 | equal insets have equal vertical and horizontal totals |
| TextAlignment.LayerAlignment | Sources/Extensions/NSTextAlignment+Extensions.swift:13-28 | the total switch gives each alignment the mode that names it back |
| TextAlignment.LayerAlignmentIsOnto | Sources/Extensions/NSTextAlignment+Extensions.swift:15-26 | every layer mode is the image of some alignment |
| TextAlignment.LayerAlignmentIsInjective | Sources/Extensions/NSTextAlignment+Extensions.swift:15-26 | distinct alignments give distinct modes |
| TextAlignment.LayerAlignmentKeepsTheName | Sources/Extensions/NSTextAlignment+Extensions.swift:16-25 | center, justified, left, natural and right map to the mode of the same name |
| Calculators.Style.With | Sources/Layout/MessagesCollectionViewFlowLayout.swift:170-247 | a setter writes its one style field; every other field keeps its value |
| FlowLayout.BuiltInFor | Sources/Layout/MessagesCollectionViewFlowLayout.swift:144-162 | each built-in kind gets a calculator serving exactly that kind; only custom gets none |
| FlowLayout.BuiltInDispatchSeparatesKinds | Sources/Layout/MessagesCollectionViewFlowLayout.swift:144-162 | two built-in kinds share a calculator iff they are the same kind |
| FlowLayout.MessagesCollectionViewFlowLayout.constructor | Sources/Layout/MessagesCollectionViewFlowLayout.swift:131-140 | six distinct calculators of the right families; the emoji one has twice the default font size; the section inset is the default from setupView |
| FlowLayout.MessagesCollectionViewFlowLayout.CellSizeCalculatorForItem | Sources/Layout/MessagesCollectionViewFlowLayout.swift:144-162 | built-in kinds go to their own built-in calculator; custom goes to the layout delegate's calculator or is fatal without a delegate; a missing data source or foreign view is fatal |
| FlowLayout.MessagesCollectionViewFlowLayout.SizeForItem | Sources/Layout/MessagesCollectionViewFlowLayout.swift:164-167 | the size is the dispatched calculator's size for that index path; dispatch failures propagate |
| FlowLayout.MessagesCollectionViewFlowLayout.InvalidationContextFor | Sources/Layout/MessagesCollectionViewFlowLayout.swift:122-127 | the context's delegate-metrics flag equals `shouldInvalidateLayout`; another context is returned unchanged |
| FlowLayout.InvalidationFollowsWidth | Sources/Layout/MessagesCollectionViewFlowLayout.swift:118-120 | invalidation happens iff the width changes; a height-only change never invalidates |
| FlowLayout.DefaultItemWidth | Sources/Layout/MessagesCollectionViewFlowLayout.swift:60-63 | with the default insets (4, 8, 4, 8) the item width is the frame width minus 16 |
| FlowLayout.ItemWidthWithoutCollectionView | Sources/Layout/MessagesCollectionViewFlowLayout.swift:60-63 | the item width is 0 without a collection view |
| FlowLayout.MessagesCollectionViewFlowLayout.Broadcast | Sources/Layout/MessagesCollectionViewFlowLayout.swift:170-252 | a setter writes its field on each of the six built-in calculators and on nothing else |
| FlowLayout.MessagesCollectionViewFlowLayout.LayoutAttributesForElements | Sources/Layout/MessagesCollectionViewFlowLayout.swift:91-102 | only item-category elements are configured, each by its dispatched calculator; other elements pass through unchanged; a list that is not all messages attributes gives an empty result |
| FlowLayout.MessagesCollectionViewFlowLayout.LayoutAttributesForItem | Sources/Layout/MessagesCollectionViewFlowLayout.swift:104-114 | nil when the attributes are not the framework's subclass; otherwise an item is configured by its calculator |
| FlowLayout.Configured | Sources/Layout/MessagesCollectionViewFlowLayout.swift:95-99 | configuring keeps an element's category and index path |
| ContentItem.CellLayout | Sources/Views/Cells/MessageContentItem.swift:101-110 | `.natural` is fatal; otherwise each of the five frames has the size the attributes give it |
| ContentItem.AvatarBottomMeetsContainerBottom | Sources/Views/Cells/MessageContentItem.swift:188-189 | a `.messageBottom` avatar's y + height equals the container's maxY |
| ContentItem.AvatarCentredOnContainer | Sources/Views/Cells/MessageContentItem.swift:190-191 | a `.messageCenter` avatar's midY equals the container's midY |
| ContentItem.CenterFallsThroughToDefault | Sources/Views/Cells/MessageContentItem.swift:209-222 | a `.messageCenter` avatar no taller than the container gives the same container frame as the default branch |
| ContentItem.DefaultBranchStacksUnderTopLabels | Sources/Views/Cells/MessageContentItem.swift:216-222 | in the default branch, with the accessory no taller than the container, container y = cellTop.h + messageTop.h + padding.top, and the message top label starts at cellTop.h |
| ContentItem.LabelsHugContainer | Sources/Views/Cells/MessageContentItem.swift:245-269 | the message top label ends padding.top above the container and the bottom label starts padding.bottom below it; both are at x = 0 |
| ContentItem.LeadingAvatarPlacement | Sources/Views/Cells/MessageContentItem.swift:174-229 | leading: avatar x = 0 and container x = avatar width + padding.left |
| ContentItem.TrailingAvatarPlacement | Sources/Views/Cells/MessageContentItem.swift:174-229 | trailing: the avatar ends at the cell width and the container's right edge + padding.right is the avatar's x |
| ContentItem.MessageContentItem.constructor | Sources/Views/Cells/MessageContentItem.swift:31-59 | zero frames, a centred cell top label, no label strings |
| ContentItem.MessageContentItem.SetupSubviews | Sources/Views/Cells/MessageContentItem.swift:72-90 | the container and avatar become subviews and the three labels sublayers, in that order |
| ContentItem.MessageContentItem.PrepareForReuse | Sources/Views/Cells/MessageContentItem.swift:92-97 | the three labels lose their strings |
| ContentItem.MessageContentItem.Configure | Sources/Views/Cells/MessageContentItem.swift:118-143 | fatal without a data source or display delegate, changing nothing; otherwise the delegate, colour, style and the three label strings are taken over |
| ContentItem.MessageContentItem.LayoutAvatarView | Sources/Views/Cells/MessageContentItem.swift:171-199 | the avatar frame is placed from the top label and container frames already in place; `.natural` is fatal |
| ContentItem.MessageContentItem.LayoutMessageContainerView | Sources/Views/Cells/MessageContentItem.swift:203-235 | the container frame is the one the branch on avatar position gives; `.natural` is fatal |
| ContentItem.MessageContentItem.LayoutCellTopLabel | Sources/Views/Cells/MessageContentItem.swift:239-241 | the cell top label sits at the origin with its size |
| ContentItem.MessageContentItem.LayoutMessageTopLabel | Sources/Views/Cells/MessageContentItem.swift:245-255 | the layer alignment follows the text alignment; the label sits above the container |
| ContentItem.MessageContentItem.LayoutBottomLabel | Sources/Views/Cells/MessageContentItem.swift:259-269 | the layer alignment follows the text alignment; the label sits below the container |
| ContentItem.MessageContentItem.Apply | Sources/Views/Cells/MessageContentItem.swift:101-110 | plain attributes change nothing; otherwise the frames end as `CellLayout` computes them, with the container laid out before the labels and the avatar |
| CollectionItem.ShowingAttributed | Sources/Views/Cells/MessageCollectionViewItem.swift:120-124 | setting the attributed value also sets the plain value to its string |
| CollectionItem.LabelFor | Sources/Views/Cells/MessageCollectionViewItem.swift:120-124 | a label shows the provided text, or is empty when the text is nil |
| CollectionItem.MessageCollectionViewItem.constructor | Sources/Views/Cells/MessageCollectionViewItem.swift:56-61 | the view has the given frame and exactly the four subviews |
| CollectionItem.MessageCollectionViewItem.SetupSubviews | Sources/Views/Cells/MessageCollectionViewItem.swift:75-80 | adds the container, avatar, top label and bottom label, in that order |
| CollectionItem.MessageCollectionViewItem.PrepareForReuse | Sources/Views/Cells/MessageCollectionViewItem.swift:82-88 | both labels end with an empty string and an empty attributed string |
| CollectionItem.MessageCollectionViewItem.Apply | Sources/Views/Cells/MessageCollectionViewItem.swift:92-100 | the framework's attributes set the avatar, top label, bottom label and container frames; other attributes change none of them |
| CollectionItem.MessageCollectionViewItem.Configure | Sources/Views/Cells/MessageCollectionViewItem.swift:102-125 | fatal without a data source or display delegate, changing nothing; otherwise label texts are the provided ones or empty |
| Label.CanonicalOrderListsEveryDetector | Sources/Views/MessageLabel.swift:219-225 | the order the table is visited in lists every detector type |
| Label.Classify | Sources/Views/MessageLabel.swift:310-335 | a link is stored under `.url` and every other known type under its own; an unknown type has no list |
| Label.GroupingKeepsInputOrder | Sources/Views/MessageLabel.swift:306-339 | grouping appends exactly each type's results, in input order, to that type's list |
| Label.GroupingFailsOnUnrecognisedType | Sources/Views/MessageLabel.swift:330-335 | grouping is fatal iff some result has an unrecognised type |
| Label.GroupingFailureSticks | Sources/Views/MessageLabel.swift:306-339 | once a prefix of the results is fatal, so is the whole list |
| Label.SpansOfAppend | Sources/Views/MessageLabel.swift:306-339 | one type's results of a concatenation are those of each part, concatenated |
| Label.DetectorStyles.ForCheckingType | Sources/Views/MessageLabel.swift:281-294 | the checking-type lookup is fatal iff the type is unrecognised |
| Label.DetectorStyles.With | Sources/Views/MessageLabel.swift:134-145 | only the given detector's attributes are replaced |
| Label.DetectorAttributesAgree | Sources/Views/MessageLabel.swift:266-294 | both `detectorAttributes` lookups give a detector the same attributes |
| Label.RunsOf | Sources/Views/MessageLabel.swift:221-224 | one run per stored range, each with the detector's attributes |
| Label.StylingOnlyEnabled | Sources/Views/MessageLabel.swift:219-225 | every styled run is a stored range of an enabled detector, with that detector's attributes |
| Label.StylingCoversEnabled | Sources/Views/MessageLabel.swift:219-225 | every stored range of an enabled detector is styled |
| Label.UpdateOnlyListed | Sources/Views/MessageLabel.swift:248-264 | an attribute update restyles only the detectors it is given |
| Label.SelectionFor | Sources/Views/MessageLabel.swift:381-401 | a stored value is reported by its own case; a nil payload reports nothing |
| Label.MessageLabel.constructor | Sources/Views/MessageLabel.swift:154-164 | no lines limit, word wrapping, no detectors, default attributes everywhere, no batch open |
| Label.MessageLabel.Parse | Sources/Views/MessageLabel.swift:298-304 | no detectors enabled means no results; otherwise the matcher's results for the enabled types |
| Label.MessageLabel.SetRangesForDetectors | Sources/Views/MessageLabel.swift:306-339 | the table becomes the grouping of the results, or the call is fatal on an unrecognised type |
| Label.MessageLabel.DetectorStylingRuns | Sources/Views/MessageLabel.swift:219-225 | the loop's runs are the specification's styling runs over the enabled detectors |
| Label.MessageLabel.SetTextStorage | Sources/Views/MessageLabel.swift:199-233 | empty or nil text empties the storage and parses nothing; otherwise it optionally reparses, then restyles and redisplays unless a batch is open |
| Label.MessageLabel.UpdateAttributes | Sources/Views/MessageLabel.swift:248-264 | the storage becomes the label's text restyled with the listed detectors, or is untouched |
| Label.MessageLabel.SetAttributes | Sources/Views/MessageLabel.swift:134-150 | replaces one detector's attributes; while configuring only marks the update pending, otherwise updates that detector now |
| Label.MessageLabel.SetAttributedStringValue | Sources/Views/MessageLabel.swift:66-70 | a new text reparses and restyles |
| Label.MessageLabel.SetStringValue | Sources/Views/MessageLabel.swift:72-76 | a new plain string becomes the attributed value and reparses |
| Label.MessageLabel.SetEnabledDetectors | Sources/Views/MessageLabel.swift:60-64 | new detectors reparse the current text |
| Label.MessageLabel.SetFont | Sources/Views/MessageLabel.swift:78-82 | restyles and keeps the range table |
| Label.MessageLabel.SetTextColor | Sources/Views/MessageLabel.swift:84-88 | restyles and keeps the range table |
| Label.MessageLabel.SetAlignment | Sources/Views/MessageLabel.swift:104-108 | restyles and keeps the range table |
| Label.MessageLabel.SetLineBreakMode | Sources/Views/MessageLabel.swift:90-95 | the text container follows; redisplay unless a batch is open |
| Label.MessageLabel.SetMaximumNumberOfLines | Sources/Views/MessageLabel.swift:97-102 | the text container follows; redisplay unless a batch is open |
| Label.MessageLabel.SetTextInsets | Sources/Views/MessageLabel.swift:110-114 | stores the insets; redisplay unless a batch is open |
| Label.MessageLabel.ApplyTextChange | Sources/Views/MessageLabel.swift:60-76 | a text or detector assignment moves the settings as `ChangedSettings` says and reparses and restyles through the setter |
| Label.MessageLabel.ApplyRestyleChange | Sources/Views/MessageLabel.swift:78-108 | a font, colour or alignment assignment moves the settings and restyles, keeping the range table |
| Label.MessageLabel.ApplyLayoutChange | Sources/Views/MessageLabel.swift:90-114 | a line-break, line-count or insets assignment moves the settings, keeps text storage and range table, and redisplays unless a batch is open |
| Label.MessageLabel.ApplyChange | Sources/Views/MessageLabel.swift:60-150 | any one assignment: the new settings are `ChangedSettings` of the old ones, the storage, range table and redisplay flag follow the setter called, and the update is marked pending exactly for an attribute change inside a batch |
| Label.MessageLabel.ApplyBlock | Sources/Views/MessageLabel.swift:186-188 | the block's assignments in order: the settings become `SettingsAfter` of the block, the update is pending iff some assignment changed attributes, and a block of attribute changes alone leaves text storage and range table as they were |
| Label.MessageLabel.FinishBatch | Sources/Views/MessageLabel.swift:189-194 | restyles all enabled detectors exactly when an update is pending, then closes the batch, clears the flag and redisplays |
| Label.MessageLabel.Configure | Sources/Views/MessageLabel.swift:186-195 | afterwards the label is valid, no batch is open, no update pending and it redisplays; the settings are `SettingsAfter` of the block; the text storage is the block's storage restyled for all enabled detectors iff some attribute change happened in the block |
| Label.BatchKeepsLastAttributes | Sources/Views/MessageLabel.swift:134-150 | after a block a detector's attributes are those of the last attribute change for it, or the old ones |
| Label.AttributeBatchChangesOnlyStyles | Sources/Views/MessageLabel.swift:134-150 | a block of attribute changes alone changes no setting but the detector attributes |
| Label.MessageLabel.HandleGesture | Sources/Views/MessageLabel.swift:366-379 | false without a character index; otherwise true iff a stored range contains it, reporting the first such range |
| ControllerDelegate.CopyPayload | Sources/Controllers/MessagesViewController+Delegate.swift:80-89 | text and emoji copy the string, attributed text its plain string, a photo its image or else its placeholder; other kinds nothing |
| ControllerDelegate.MenuKindsAreCopyKinds | Sources/Controllers/MessagesViewController+Delegate.swift:60-66 | the menu kinds are exactly the kinds with a copy payload |
| ControllerDelegate.CanPerformAction | Sources/Controllers/MessagesViewController+Delegate.swift:69-71 | true iff the action is `copy:` |
| ControllerDelegate.ReferenceSizeForHeader | Sources/Controllers/MessagesViewController+Delegate.swift:34-44 | the layout delegate's header size; fatal for a foreign view or a missing delegate |
| ControllerDelegate.ReferenceSizeForFooter | Sources/Controllers/MessagesViewController+Delegate.swift:46-54 | the layout delegate's footer size; fatal for a foreign view or a missing delegate |
| ControllerDelegate.SizeForItemAt | Sources/Controllers/MessagesViewController+Delegate.swift:29-32 | zero for a foreign layout, otherwise the messages layout's `sizeForItem` |
| ControllerDelegate.MessagesViewController.ShouldShowMenuForItemAt | Sources/Controllers/MessagesViewController+Delegate.swift:56-67 | no data source: no menu and no change; otherwise a menu iff the kind is text, attributed text, emoji or photo, recording the index path only then |
| ControllerDelegate.MessagesViewController.PerformAction | Sources/Controllers/MessagesViewController+Delegate.swift:73-90 | fatal without a data source; otherwise the kind's copy payload is written, or nothing |
| ControllerDataSource.NumberOfSections | Sources/Controllers/MessagesViewController+DataSource.swift:29-34 | the data source's count, 0 without one; fatal for a foreign view |
| ControllerDataSource.NumberOfItems | Sources/Controllers/MessagesViewController+DataSource.swift:36-41 | the data source's count, 0 without one; fatal for a foreign view |
| ControllerDataSource.ItemClassFor | Sources/Controllers/MessagesViewController+DataSource.swift:55-70 | text kinds get a text item, photo and video a media item, location a location item; only custom has no framework item |
| ControllerDataSource.ItemForRepresentedObject | Sources/Controllers/MessagesViewController+DataSource.swift:43-71 | fatal for a foreign view or missing data source; custom returns the data source's unconfigured item; a built-in kind is fatal without a display delegate, otherwise a configured item of the kind's class |
| ControllerDataSource.SupplementaryView | Sources/Controllers/MessagesViewController+DataSource.swift:74-92 | header and footer come from the display delegate; any other kind, a foreign view or a missing display delegate is fatal |
| ControllerDataSource.EachCallbackNeedsItsOwnCollaborator | Sources/Controllers/MessagesViewController+DataSource.swift:45-82 | a missing data source stops item creation but not supplementary views |
| ControllerDataSource.OnlyCustomItemsNeedNoDisplayDelegate | Sources/Controllers/MessagesViewController+DataSource.swift:55-82 | without a display delegate supplementary views are fatal and item creation succeeds exactly for custom messages |
| GrowingText.MinSize | Example/Sources/GrowingTextField.swift:35-39 | the min size has the minimum height, or 0 without one |
| GrowingText.ComputedSize | Example/Sources/GrowingTextField.swift:49-58 | used height + 7, or the last size when over the limit, and never below the minimum height |
| GrowingText.ComputedSizeKeepsTheLimit | Example/Sources/GrowingTextField.swift:52-58 | once a size within the limit is stored, later computed sizes stay within it |
| GrowingText.ComputedSizeWithoutLimitFollowsTheText | Example/Sources/GrowingTextField.swift:49-58 | without a limit the height is exactly the used height + 7 above the minimum |
| GrowingText.GrowingTextField.constructor | Example/Sources/GrowingTextField.swift:13-19 | the minimum height is 22, with no limit, no stored size and not editing |
| GrowingText.GrowingTextField.TextDidBeginEditing | Example/Sources/GrowingTextField.swift:21-24 | begin editing sets `isEditing` |
| GrowingText.GrowingTextField.TextDidEndEditing | Example/Sources/GrowingTextField.swift:25-28 | end editing clears `isEditing` |
| GrowingText.GrowingTextField.IntrinsicContentSize | Example/Sources/GrowingTextField.swift:34-66 | outside editing a stored size is returned unchanged; with no measurement, the stored or min size; otherwise the computed size, which is returned and stored |

## Left out

- The size calculators' own sizing and `configure(attributes:)` are not part of this model. The layout passes their family, style and index path to an input function (`SizingOracle`).
- The lazily created calculators are created by the layout's constructor and cannot be replaced. Laziness changes no observable result in the model. The source's `open var` lets a subclass or client assign another calculator, and the model does not allow that.
- The data detector (`NSDataDetector`) is an input `matcher` from a text and a set of detector types to results.
- The layout manager's glyph lookup (`stringIndex`) is replaced by an optional character index passed to `HandleGesture`. Drawing is left out.
- Swift dictionary iteration order is unspecified. The model visits the range table in a fixed order: address, date, phone number, url. `HandleGesture`'s "first match" is first in that order.
- The paragraph style that already exists in the text is not modelled. The label installs its own paragraph style over the whole text, and `UpdateAttributes` rebuilds the storage from `attributedStringValue` without that style, as the code does.
- Colours, fonts, layers, `contentsScale`, `wantsLayer` and the view hierarchy are identifiers or left out. Subviews are recorded as lists of names.
- Pasteboard writes are foreign calls. `PerformAction` records only the payload it writes: a string written with `setString` and an image written with `writeObjects` are both kept as the pasteboard's last payload, and the pasteboard's own state is not modelled.
- The label delegate and the cell delegate's callbacks are foreign. The label reports only which selection it would send.
- `handleGesture(for:value:)` ignores its detector-type argument in the code. The model takes only the stored value.
- `super.apply`, `super.prepareForReuse` and `super.configure` calls are not composed. Each class models its own body.
- ItemForRepresentedObject: `TextMessageItem`, `MediaMessageItem` and `LocationMessageItem` are not part of this model. Their `configure` is taken to be the inherited `MessageContentItem.configure`, and only its display-delegate guard is composed; the data-source guard cannot fail there. A configured item is returned as the class, message and index path it was configured with, so the delegate, colour, style and label strings that configuration sets are not stated.
- The `configureAvatarView` display-delegate call inside `configure` is a foreign call.
- `LayoutAttributesForElements`: the in-place mutation of shared attribute objects is modelled as returning new element values. Aliasing between elements is not captured.
- The commented-out tap-handling code is left out.
- `invalidateIntrinsicContentSize` in `textDidChange` asks the toolkit to recompute the size and changes no modelled state. `IntrinsicContentSize` is the recomputation.
- The field editor's used text rectangle is an input (`usedHeight`), and the toolkit's own intrinsic size is an input (`superSize`).
- Sources/Views/MessagesCollectionView.swift is not part of this model. It handles main-queue scrolling, section insertion and frame-driven invalidation.
- The toolkit's DetectorType.swift is not part of this model. Its four cases and their checking types are stated in `Label`.
- The example application's other view controllers, GrowingTextView.swift and NSFont+Extensions.swift are not part of this model. They are wiring, a thin wrapper over the layout manager, and font construction.
- Floating-point rounding is not modelled. `CGFloat` is `real`.
- The `.messageBottom` branch of `layoutMessageContainerView` subtracts `padding.top`. The model keeps this as the code has it.
