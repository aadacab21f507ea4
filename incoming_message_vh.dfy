/** The binder for a received message's row: the archive icon, the balloon's
    tail-dependent background and geometry, the avatar decision tree, and
    the hiding of blank messages. */
module IncomingMessages {
  import opened Basics
  import opened MessageItems

  /** Where the avatar image comes from. */
  datatype AvatarImage =
    | UserAvatar(user: string, userName: string)      // the one-to-one chat partner
    | AccountAvatar(account: string)                  // our own avatar, for our echo in a room
    | RoomAvatar(room: string)                        // a room message without a sender
    | OccupantAvatar(occupant: string, nick: string)  // a room occupant's avatar
    | DefaultAvatar(name: string, nick: string)       // generated when the occupant jid cannot be built

  /** The two avatar settings the binder consults. */
  datatype AvatarSettings = AvatarSettings(showAvatars: bool, showAvatarsMUC: bool)

  /** Java's String.trim(): strips every character at or below U+0020 from
      both ends. */
  function Trim(s: string): string {
    TrimTrailing(TrimLeading(s))
  }

  function TrimLeading(s: string): (r: string)
    ensures |r| <= |s|
    ensures r != [] ==> r[0] > ' '
  {
    if |s| > 0 && s[0] <= ' ' then TrimLeading(s[1..]) else s
  }

  function TrimTrailing(s: string): string {
    if |s| > 0 && s[|s| - 1] <= ' ' then TrimTrailing(s[..|s| - 1]) else s
  }

  /** Every character is white space or a control character. */
  predicate IsBlank(s: string) {
    forall i :: 0 <= i < |s| ==> s[i] <= ' '
  }

  lemma {:induction false} TrimLeadingEmptyIffBlank(s: string)
    ensures TrimLeading(s) == [] <==> IsBlank(s)
  {
    if |s| > 0 && s[0] <= ' ' {
      TrimLeadingEmptyIffBlank(s[1..]);
      assert IsBlank(s) <==> IsBlank(s[1..]) by {
        if IsBlank(s[1..]) {
          forall i | 0 <= i < |s| ensures s[i] <= ' ' {
            if i > 0 { assert s[i] == s[1..][i - 1]; }
          }
        }
      }
    }
  }

  /** Trimming the end never removes a first character above U+0020. */
  lemma {:induction false} TrimTrailingKeepsHead(s: string)
    requires |s| > 0 && s[0] > ' '
    ensures TrimTrailing(s) != []
  {
    if s[|s| - 1] <= ' ' {
      TrimTrailingKeepsHead(s[..|s| - 1]);
    }
  }

  /** A message's trimmed text is empty exactly when the text is blank. */
  lemma TrimEmptyIffBlank(s: string)
    ensures Trim(s) == [] <==> IsBlank(s)
  {
    TrimLeadingEmptyIffBlank(s);
    if TrimLeading(s) != [] {
      TrimTrailingKeepsHead(TrimLeading(s));
    }
  }

  /** Avatars are wanted when the setting for this kind of chat is on. */
  function AvatarWanted(isMUC: bool, settings: AvatarSettings): bool {
    if isMUC then settings.showAvatarsMUC else settings.showAvatars
  }

  /** The avatar's (and its background's) visibility setUpAvatar leaves:
      GONE when avatars are off, INVISIBLE (keeping the column) without a
      tail, and VISIBLE otherwise. */
  function AvatarVisibility(isMUC: bool, settings: AvatarSettings, needTail: bool): (v: Visibility)
    ensures v == Gone <==> !AvatarWanted(isMUC, settings)
    ensures v == Invisible <==> AvatarWanted(isMUC, settings) && !needTail
    ensures v == Visible <==> AvatarWanted(isMUC, settings) && needTail
  {
    if !AvatarWanted(isMUC, settings) then Gone
    else if !needTail then Invisible
    else Visible
  }

  /** The avatar source for a shown avatar: the partner's avatar outside
      rooms; in a room our own avatar for our nickname, the room's for an
      empty resource, and otherwise the occupant's, or a generated one when
      the occupant jid "user/resource" cannot be built. */
  function AvatarSource(m: MessageItem, isMUC: bool, userName: string, ownNickname: string,
                        jidFrom: string -> Option<string>): (img: AvatarImage)
    ensures !isMUC ==> img == UserAvatar(m.user, userName)
    ensures isMUC ==> (img.AccountAvatar? <==> ownNickname == m.resource)
    ensures isMUC && ownNickname == m.resource ==> img == AccountAvatar(m.account)
    ensures isMUC ==> (img.RoomAvatar? <==> ownNickname != m.resource && m.resource == "")
    ensures isMUC && ownNickname != m.resource && m.resource == "" ==> img == RoomAvatar(m.user)
    ensures isMUC && ownNickname != m.resource && m.resource != "" ==>
      match jidFrom(m.user + "/" + m.resource)
      case Some(occupant) => img == OccupantAvatar(occupant, m.resource)
      case None => img == DefaultAvatar(m.resource, m.resource)
  {
    if !isMUC then UserAvatar(m.user, userName)
    else if ownNickname == m.resource then AccountAvatar(m.account)
    else if m.resource == "" then RoomAvatar(m.user)
    else
      match jidFrom(m.user + "/" + m.resource)
      case Some(occupant) => OccupantAvatar(occupant, m.resource)
      case None => DefaultAvatar(m.resource, m.resource)
  }

  class IncomingMessageVH {
    var statusIcon: Visibility
    var messageBalloon: Visibility
    var messageTime: Visibility
    var avatar: Visibility
    var avatarBackground: Visibility
    var avatarImage: Option<AvatarImage>
    var balloonBackground: BalloonDrawable
    var shadowBackground: BalloonDrawable
    var shadowMargins: Insets   // the shadow's layout margins, in dip
    var balloonPadding: Insets  // the balloon's padding, in dip

    /** Sets the avatar's visibility and, only when it is shown, its image;
        otherwise the image the recycled holder had stays. */
    method SetUpAvatar(m: MessageItem, isMUC: bool, userName: string, needTail: bool,
                       settings: AvatarSettings, ownNickname: string,
                       jidFrom: string -> Option<string>)
      modifies this`avatar, this`avatarBackground, this`avatarImage
      ensures avatar == AvatarVisibility(isMUC, settings, needTail)
      ensures avatarBackground == avatar
      ensures avatarImage == if avatar == Visible
        then Some(AvatarSource(m, isMUC, userName, ownNickname, jidFrom))
        else old(avatarImage)
    {
      var needAvatar := if isMUC then settings.showAvatarsMUC else settings.showAvatars;

      if !needAvatar {
        avatar := Gone;
        avatarBackground := Gone;
        return;
      }

      if !needTail {
        avatar := Invisible;
        avatarBackground := Invisible;
        return;
      }

      avatar := Visible;
      avatarBackground := Visible;

      if !isMUC {
        avatarImage := Some(UserAvatar(m.user, userName));
      } else if ownNickname == m.resource {
        avatarImage := Some(AccountAvatar(m.account));
      } else if m.resource == "" {
        avatarImage := Some(RoomAvatar(m.user));
      } else {
        var nick := m.resource;
        var userJid := jidFrom(m.user + "/" + m.resource);
        if userJid.Some? {
          avatarImage := Some(OccupantAvatar(userJid.value, nick));
        } else {
          avatarImage := Some(DefaultAvatar(nick, nick));
        }
      }
    }

    /** Binds a received message: archive icon, tail-dependent background and
        geometry, the avatar, and finally hides blank messages (with their
        avatar) or shows balloon and time for the others. */
    method Bind(m: MessageItem, isMUC: bool, userName: string, needTail: bool,
                settings: AvatarSettings, ownNickname: string,
                jidFrom: string -> Option<string>)
      modifies this
      ensures statusIcon == (if m.receivedFromArchive then Visible else Gone)
      ensures balloonBackground == (if needTail then MsgIn else Msg)
      ensures shadowBackground == (if needTail then MsgInShadow else MsgShadow)
      ensures needTail ==> shadowMargins == Insets(2, 2, 2, 2) && balloonPadding.left == 20
      ensures !needTail ==> shadowMargins == Insets(11, 2, 10, 2) && balloonPadding.left == 12
      ensures balloonPadding.right == 12 && balloonPadding.top == 8 && balloonPadding.bottom == 8
      ensures IsBlank(m.text) ==>
        messageBalloon == Gone && messageTime == Gone && avatar == Gone && avatarBackground == Gone
      ensures !IsBlank(m.text) ==>
        messageBalloon == Visible && messageTime == Visible
        && avatar == AvatarVisibility(isMUC, settings, needTail) && avatarBackground == avatar
      ensures avatarImage == if AvatarVisibility(isMUC, settings, needTail) == Visible
        then Some(AvatarSource(m, isMUC, userName, ownNickname, jidFrom))
        else old(avatarImage)
    {
      statusIcon := if m.receivedFromArchive then Visible else Gone;

      balloonBackground := if needTail then MsgIn else Msg;
      shadowBackground := if needTail then MsgInShadow else MsgShadow;

      shadowMargins := Insets(if needTail then 2 else 11, 2, if needTail then 2 else 10, 2);
      balloonPadding := Insets(if needTail then 20 else 12, 8, 12, 8);

      SetUpAvatar(m, isMUC, userName, needTail, settings, ownNickname, jidFrom);

      TrimEmptyIffBlank(m.text);
      if Trim(m.text) == [] {
        messageBalloon := Gone;
        messageTime := Gone;
        avatar := Gone;
        avatarBackground := Gone;
      } else {
        messageBalloon := Visible;
        messageTime := Visible;
      }
    }
  }
}
