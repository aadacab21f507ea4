/** The binder for a sent message's row: the delivery-status icon chosen by a
    priority rule over the message's flags, the progress bar, and the
    balloon's tail-dependent background and geometry. */
module OutgoingMessages {
  import opened Basics
  import opened MessageItems

  /** The status drawables setStatusIcon may hand to the icon view. */
  datatype StatusIcon = Delivered | Forwarded | Synced | HasError | NotSent | Acknowledged

  /** How long (ms) an unsent message may wait before it is shown as not sent. */
  const NotSentDelay: int := 1000

  /** The message has no pending upload, is not sent, and is older than the delay. */
  predicate NotSentOverdue(m: MessageItem, now: int) {
    !m.uploadFileMessage && !m.sent && now - m.timestamp > NotSentDelay
  }

  /** The status icon of a sent message: forwarded wins, then archived,
      then error, then an overdue unsent message, then an undelivered but
      acknowledged one; everything else keeps the delivered default. */
  function StatusIconOf(m: MessageItem, now: int): (icon: StatusIcon)
    ensures icon == Forwarded <==> m.forwarded
    ensures icon == Synced <==> !m.forwarded && m.receivedFromArchive
    ensures icon == HasError <==> !m.forwarded && !m.receivedFromArchive && m.error
    ensures icon == NotSent <==>
      !m.forwarded && !m.receivedFromArchive && !m.error && NotSentOverdue(m, now)
    ensures icon == Acknowledged <==>
      !m.forwarded && !m.receivedFromArchive && !m.error && !NotSentOverdue(m, now)
      && !m.delivered && m.acknowledged
    ensures icon == Delivered <==>
      !m.forwarded && !m.receivedFromArchive && !m.error && !NotSentOverdue(m, now)
      && (m.delivered || !m.acknowledged)
  {
    if m.forwarded then Forwarded
    else if m.receivedFromArchive then Synced
    else if m.error then HasError
    else if NotSentOverdue(m, now) then NotSent
    else if !m.delivered then (if m.acknowledged then Acknowledged else Delivered)
    else Delivered
  }

  /** The status icon is shown in every case but one: it is hidden exactly
      when the rule falls through to the delivered default for a message
      that is not delivered (and so not acknowledged either). */
  function StatusVisibilityOf(m: MessageItem, now: int): (v: Visibility)
    ensures v != Invisible
    ensures v == Gone <==> StatusIconOf(m, now) == Delivered && !m.delivered
  {
    if !m.forwarded && !m.receivedFromArchive && !m.error && !NotSentOverdue(m, now)
       && !m.delivered && !m.acknowledged
    then Gone
    else Visible
  }

  /** Once an unsent message is shown as not sent, it stays so as time goes on. */
  lemma NotSentPersists(m: MessageItem, now: int, later: int)
    requires now <= later
    requires StatusIconOf(m, now) == NotSent
    ensures StatusIconOf(m, later) == NotSent
  {
  }

  class OutgoingMessageVH {
    var statusIcon: Visibility
    var statusImage: StatusIcon
    var progressBar: Visibility
    var balloonBackground: BalloonDrawable
    var shadowBackground: BalloonDrawable
    var shadowMargins: Insets   // the shadow's layout margins, in dip
    var balloonPadding: Insets  // the balloon's padding, in dip

    /** Shows the status icon, sets the progress bar from a pending upload,
        then refines the icon through the priority rule. */
    method SetStatusIcon(m: MessageItem, now: int)
      modifies this`statusIcon, this`statusImage, this`progressBar
      ensures statusImage == StatusIconOf(m, now)
      ensures statusIcon == StatusVisibilityOf(m, now)
      ensures progressBar == (if m.uploadFileMessage then Visible else Gone)
    {
      statusIcon := Visible;
      progressBar := Gone;

      var isFileUploadInProgress := m.uploadFileMessage;
      if isFileUploadInProgress {
        progressBar := Visible;
      }

      var messageIcon := Delivered;
      if m.forwarded {
        messageIcon := Forwarded;
      } else if m.receivedFromArchive {
        messageIcon := Synced;
      } else if m.error {
        messageIcon := HasError;
      } else if !isFileUploadInProgress && !m.sent && now - m.timestamp > NotSentDelay {
        messageIcon := NotSent;
      } else if !m.delivered {
        if m.acknowledged {
          messageIcon := Acknowledged;
        } else {
          statusIcon := Gone;
        }
      }
      statusImage := messageIcon;
    }

    /** Binds a sent message: status icon, then the progress bar again from
        the message's own in-progress flag (overwriting the upload-based
        setting), then the tail-dependent background and geometry. */
    method Bind(m: MessageItem, now: int, needTail: bool)
      modifies this
      ensures statusImage == StatusIconOf(m, now)
      ensures statusIcon == StatusVisibilityOf(m, now)
      ensures progressBar == (if m.inProgress then Visible else Gone)
      ensures balloonBackground == (if needTail then MsgOut else Msg)
      ensures shadowBackground == (if needTail then MsgOutShadow else MsgShadow)
      ensures needTail ==> shadowMargins == Insets(2, 2, 2, 2) && balloonPadding.right == 20
      ensures !needTail ==> shadowMargins == Insets(10, 2, 11, 2) && balloonPadding.right == 12
      ensures balloonPadding.left == 12 && balloonPadding.top == 8 && balloonPadding.bottom == 8
    {
      SetStatusIcon(m, now);

      progressBar := if m.inProgress then Visible else Gone;

      shadowBackground := if needTail then MsgOutShadow else MsgShadow;
      balloonBackground := if needTail then MsgOut else Msg;

      shadowMargins := Insets(if needTail then 2 else 10, 2, if needTail then 2 else 11, 2);
      balloonPadding := Insets(12, 8, if needTail then 20 else 12, 8);
    }
  }
}
