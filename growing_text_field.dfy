// The example application's growing text field: its intrinsic height
// follows the field editor's used text height while editing, clamped from
// below by a minimum height and held at the previous size once a height
// limit is crossed; outside editing it keeps the size it last computed.
module GrowingText {
  import opened Kit

  /** The gap the field editor leaves below its text. */
  const BottomSpace: real := 7.0

  /** The size reported before any size was computed: the toolkit's size
      with the minimum height, or 0 without one. */
  function MinSize(superSize: Size, minHeight: Option<real>): (s: Size)
    ensures s.width == superSize.width
    ensures minHeight.Some? ==> s.height == minHeight.value
    ensures minHeight.None? ==> s.height == 0.0
  {
    superSize.(height := minHeight.GetOr(0.0))
  }

  /** The computed path of `intrinsicContentSize`: the used text height plus
      the bottom gap, except that a height over the limit reuses the last
      size, and the result never goes below the minimum height. */
  function ComputedSize(superSize: Size, usedHeight: real, heightLimit: Option<real>,
                        lastSize: Option<Size>, minHeight: Option<real>): (s: Size)
    ensures minHeight.Some? ==> s.height >= minHeight.value
    ensures heightLimit.Some? && lastSize.Some? && usedHeight + BottomSpace > heightLimit.value ==>
      s.width == lastSize.value.width
      && s.height == (if minHeight.Some? && lastSize.value.height < minHeight.value then minHeight.value else lastSize.value.height)
    ensures !(heightLimit.Some? && lastSize.Some? && usedHeight + BottomSpace > heightLimit.value) ==>
      s.width == superSize.width
      && s.height == (if minHeight.Some? && usedHeight + BottomSpace < minHeight.value then minHeight.value else usedHeight + BottomSpace)
  {
    var grown := superSize.(height := usedHeight + BottomSpace);
    var limited := if heightLimit.Some? && lastSize.Some? && grown.height > heightLimit.value then lastSize.value else grown;
    if minHeight.Some? && limited.height < minHeight.value then limited.(height := minHeight.value) else limited
  }

  /** Once a size within the limit has been computed, every later computed
      size stays within it, provided the minimum height does too. */
  lemma ComputedSizeKeepsTheLimit(superSize: Size, usedHeight: real, limit: real, last: Size, minHeight: Option<real>)
    requires last.height <= limit
    requires minHeight.Some? ==> minHeight.value <= limit
    ensures ComputedSize(superSize, usedHeight, Some(limit), Some(last), minHeight).height <= limit
  {
    if usedHeight + BottomSpace > limit {
      assert ComputedSize(superSize, usedHeight, Some(limit), Some(last), minHeight).height
        == (if minHeight.Some? && last.height < minHeight.value then minHeight.value else last.height);
    }
  }

  /** Without a limit, the height grows and shrinks with the text down to the
      minimum. */
  lemma ComputedSizeWithoutLimitFollowsTheText(superSize: Size, usedHeight: real, lastSize: Option<Size>, minHeight: Option<real>)
    requires minHeight.None? || usedHeight + BottomSpace >= minHeight.value
    ensures ComputedSize(superSize, usedHeight, None, lastSize, minHeight) == Size(superSize.width, usedHeight + BottomSpace)
  {
  }

  class GrowingTextField {
    var minHeight: Option<real>
    var heightLimit: Option<real>
    var lastSize: Option<Size>
    var isEditing: bool

    /** Defaults: a 22-point minimum, no limit, no size yet, not editing. */
    constructor ()
      ensures minHeight == Some(22.0) && heightLimit == None
      ensures lastSize == None && !isEditing
    {
      minHeight := Some(22.0);
      heightLimit := None;
      lastSize := None;
      isEditing := false;
    }

    /** `textDidBeginEditing`. */
    method TextDidBeginEditing()
      modifies this`isEditing
      ensures isEditing
    {
      isEditing := true;
    }

    /** `textDidEndEditing`. */
    method TextDidEndEditing()
      modifies this`isEditing
      ensures !isEditing
    {
      isEditing := false;
    }

    /** `intrinsicContentSize`, given the toolkit's own intrinsic size and the
        field editor's used text height when there is one. Outside editing a
        stored size is returned as it is; a missing measurement returns the
        stored size or the minimum size; otherwise the computed size is
        returned and stored. */
    method IntrinsicContentSize(superSize: Size, usedHeight: Option<real>) returns (size: Size)
      modifies this`lastSize
      ensures !old(isEditing) && old(lastSize).Some? ==> size == old(lastSize).value && lastSize == old(lastSize)
      ensures (isEditing || old(lastSize).None?) && usedHeight.None? ==>
        size == (if old(lastSize).Some? then old(lastSize).value else MinSize(superSize, minHeight))
        && lastSize == old(lastSize)
      ensures (isEditing || old(lastSize).None?) && usedHeight.Some? ==>
        size == ComputedSize(superSize, usedHeight.value, heightLimit, old(lastSize), minHeight)
        && lastSize == Some(size)
    {
      var minSize := superSize;
      minSize := minSize.(height := minHeight.GetOr(0.0));
      if isEditing || lastSize.None? {
        if usedHeight.None? {
          return lastSize.GetOr(minSize);
        }
        var newSize := superSize;
        newSize := newSize.(height := usedHeight.value + BottomSpace);
        if heightLimit.Some? && lastSize.Some? && newSize.height > heightLimit.value {
          newSize := lastSize.value;
        }
        if minHeight.Some? && newSize.height < minHeight.value {
          newSize := newSize.(height := minHeight.value);
        }
        lastSize := Some(newSize);
        size := newSize;
      } else {
        size := lastSize.GetOr(minSize);
      }
    }
  }
}
