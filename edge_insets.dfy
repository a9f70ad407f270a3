// The NSEdgeInsets helpers: the summed vertical and horizontal insets, the
// initializer that takes its arguments in top, bottom, left, right order,
// and field-wise equality.
module EdgeInsets {

  /** Foundation's NSEdgeInsets; the memberwise order is top, left, bottom, right. */
  datatype NSEdgeInsets = NSEdgeInsets(top: real, left: real, bottom: real, right: real) {

    /** The total inset along the y axis. */
    function Vertical(): real {
      top + bottom
    }

    /** The total inset along the x axis. */
    function Horizontal(): real {
      left + right
    }
  }

  /** NSEdgeInsetsZero. */
  const Zero := NSEdgeInsets(0.0, 0.0, 0.0, 0.0)

  /** `init(top:bottom:left:right:)`: every argument defaults to 0 and lands
      in the field of its own name, whatever its position. */
  function InsetsWith(top: real := 0.0, bottom: real := 0.0, left: real := 0.0, right: real := 0.0): (r: NSEdgeInsets)
    ensures r.top == top && r.bottom == bottom && r.left == left && r.right == right
  {
    NSEdgeInsets(top, left, bottom, right)
  }

  /** NSEdgeInsetsEqual, which the `==` operator forwards to. */
  predicate Equal(lhs: NSEdgeInsets, rhs: NSEdgeInsets) {
    lhs.top == rhs.top && lhs.left == rhs.left && lhs.bottom == rhs.bottom && lhs.right == rhs.right
  }

  /** The argument-reordering initializer feeds `vertical` from its first two
      arguments and `horizontal` from its last two. */
  lemma InitFeedsVerticalAndHorizontal(top: real, bottom: real, left: real, right: real)
    ensures InsetsWith(top, bottom, left, right).Vertical() == top + bottom
    ensures InsetsWith(top, bottom, left, right).Horizontal() == left + right
  {
  }

  /** A default-initialized inset is NSEdgeInsetsZero and insets nothing. */
  lemma DefaultInsetsAreZero()
    ensures InsetsWith() == Zero
    ensures InsetsWith().Vertical() == 0.0 && InsetsWith().Horizontal() == 0.0
  {
  }

  /** `==` holds exactly when the two values are the same four numbers. */
  lemma EqualIsFieldwise(lhs: NSEdgeInsets, rhs: NSEdgeInsets)
    ensures Equal(lhs, rhs) <==> lhs == rhs
  {
  }

  /** `==` is an equivalence: reflexive, symmetric and transitive. */
  lemma EqualIsEquivalence(a: NSEdgeInsets, b: NSEdgeInsets, c: NSEdgeInsets)
    ensures Equal(a, a)
    ensures Equal(a, b) ==> Equal(b, a)
    ensures Equal(a, b) && Equal(b, c) ==> Equal(a, c)
  {
  }

  /** Equal insets have equal vertical and horizontal totals. */
  lemma EqualInsetsHaveEqualTotals(a: NSEdgeInsets, b: NSEdgeInsets)
    requires Equal(a, b)
    ensures a.Vertical() == b.Vertical() && a.Horizontal() == b.Horizontal()
  {
  }
}
