/** Small value types shared by the timeline adapter and its row binders. */
module Basics {

  /** A value that may be absent (Java's nullable reference). */
  datatype Option<+T> = None | Some(value: T)

  /** Android's three View visibility states. */
  datatype Visibility = Visible | Invisible | Gone

  /** Four edge sizes in dip, in Android's (left, top, right, bottom) order,
      before any dip-to-pixel conversion. */
  datatype Insets = Insets(left: int, top: int, right: int, bottom: int)

  /** The balloon and shadow drawables a message row may be given. */
  datatype BalloonDrawable =
    | Msg | MsgShadow          // a balloon without a tail
    | MsgOut | MsgOutShadow    // an outgoing balloon with a tail
    | MsgIn | MsgInShadow      // an incoming balloon with a tail
}
