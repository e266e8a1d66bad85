/** The decisions behind one rendered chat message: the Cashu token carried in
    its text, whether a redeem button is offered for it, and the alignment and
    styling chosen by who sent it. */
module ChatMessage {
  import opened Common
  import opened Strings

  /** The marker that starts a version-A Cashu token in a message. */
  const CashuMarker: string := "cashuA"

  datatype MessageEvent = MessageEvent(pubkey: string, content: string, createdAt: int)

  /** Placement of the message row. */
  datatype Alignment = JustifyEnd | JustifyStart | Unaligned

  /** Colour and rounding of the bubble: the user's own, or anyone else's. */
  datatype Bubble = OwnBubble | PeerBubble

  /** Alignment of the timestamp under the bubble. */
  datatype Side = Right | Left

  /** What the component renders: the row's alignment, the bubble style, the
      timestamp's side, the text shown, and the token handed to a redeem button
      when one is shown. */
  datatype Rendered = Rendered(
    alignment: Alignment,
    bubble: Bubble,
    timestampSide: Side,
    text: string,
    redeemToken: Option<string>)

  /** `isDecodableToken`: true exactly when `atob(token)` returns rather than
      throws. `atob` is given as the decoder's outcome, `None` for a throw. */
  function IsDecodableToken(token: string, atob: string -> Option<string>): (r: bool)
    ensures r <==> atob(token).Some?
  {
    match atob(token)
    case Some(_) => true
    case None => false
  }

  /** `tokenAfterCashuA`: null without the marker, otherwise the second piece of
      splitting the content on the marker. */
  function TokenAfterCashuA(content: string): (r: Option<string>)
    ensures r.None? <==> !Contains(content, CashuMarker)
  {
    if Contains(content, CashuMarker) then Some(Split(content, CashuMarker)[1]) else None
  }

  /** `canDecodeToken`: an absent or empty token is falsy and never decoded. */
  function CanDecodeToken(token: Option<string>, atob: string -> Option<string>): (r: bool)
    ensures token.None? ==> !r
    ensures token == Some("") ==> !r
    ensures token.Some? && token.value != "" ==> (r <==> atob(token.value).Some?)
  {
    match token
    case None => false
    case Some(t) => if t == "" then false else IsDecodableToken(t, atob)
  }

  /** The three-way row alignment: the user's own message first, then the chat
      counterpart's, then anything else. */
  function AlignmentFor(sender: string, decryptedNpub: Option<string>, currentChatPubkey: string): (a: Alignment)
    ensures a == JustifyEnd <==> decryptedNpub == Some(sender)
    ensures a == JustifyStart <==> decryptedNpub != Some(sender) && sender == currentChatPubkey
    ensures a == Unaligned <==> decryptedNpub != Some(sender) && sender != currentChatPubkey
  {
    if decryptedNpub == Some(sender) then JustifyEnd
    else if sender == currentChatPubkey then JustifyStart
    else Unaligned
  }

  /** `ChatMessage`: nothing without a message or with an absent (or empty)
      counterpart key; otherwise the row's layout and content. */
  function Render(
    messageEvent: Option<MessageEvent>,
    currentChatPubkey: Option<string>,
    decryptedNpub: Option<string>,
    atob: string -> Option<string>): (r: Option<Rendered>)
    ensures r.None? <==> messageEvent.None? || currentChatPubkey.None? || currentChatPubkey == Some("")
  {
    if messageEvent.None? || currentChatPubkey.None? || currentChatPubkey.value == "" then None
    else
      var m := messageEvent.value;
      var token := TokenAfterCashuA(m.content);
      var canDecode := CanDecodeToken(token, atob);
      var own := decryptedNpub == Some(m.pubkey);
      Some(Rendered(
        AlignmentFor(m.pubkey, decryptedNpub, currentChatPubkey.value),
        if own then OwnBubble else PeerBubble,
        if own then Right else Left,
        m.content,
        if Contains(m.content, CashuMarker) && canDecode then token else None))
  }

  /** Splitting on the marker, the second piece is the first piece of the text
      after the first marker. */
  lemma TokenFollowsFirstMarker(content: string)
    requires Contains(content, CashuMarker)
    ensures var i := IndexOf(content, CashuMarker).value;
            TokenAfterCashuA(content) == Some(Split(content[i + |CashuMarker|..], CashuMarker)[0])
  {
    var i := IndexOf(content, CashuMarker).value;
    assert Split(content, CashuMarker) == [content[..i]] + Split(content[i + |CashuMarker|..], CashuMarker);
  }

  /** The first piece of splitting on the marker is a prefix with no marker in
      it, followed by the end of the text or by a marker. */
  lemma {:induction false} HeadPieceShape(rest: string)
    ensures var t := Split(rest, CashuMarker)[0];
            && |t| <= |rest| && rest[..|t|] == t
            && (|t| == |rest| || MatchAt(rest, CashuMarker, |t|))
            && !Contains(t, CashuMarker)
  {
    SplitHead(rest, CashuMarker);
    match IndexOf(rest, CashuMarker)
    case None =>
    case Some(j) =>
      PrefixBeforeFirstMatch(rest, CashuMarker, j);
  }

  /** The token is the text after the first marker up to the next marker or the
      end: "cashuA" followed by it occurs at the first marker, what follows it is
      the end or another marker, and it holds no marker itself. */
  lemma {:induction false} TokenShape(content: string)
    requires Contains(content, CashuMarker)
    ensures TokenAfterCashuA(content).Some?
    ensures var i := IndexOf(content, CashuMarker).value;
            var t := TokenAfterCashuA(content).value;
            var end := i + |CashuMarker| + |t|;
            && (forall k :: 0 <= k < i ==> !MatchAt(content, CashuMarker, k))
            && end <= |content|
            && content[i..end] == CashuMarker + t
            && (end == |content| || MatchAt(content, CashuMarker, end))
            && !Contains(t, CashuMarker)
  {
    var i := IndexOf(content, CashuMarker).value;
    var rest := content[i + |CashuMarker|..];
    TokenFollowsFirstMarker(content);
    HeadPieceShape(rest);
    var t := TokenAfterCashuA(content).value;
    var end := i + |CashuMarker| + |t|;
    assert content[i..i + |CashuMarker|] == CashuMarker;
    assert content[i + |CashuMarker|..end] == rest[..|t|];
    assert content[i..end] == content[i..i + |CashuMarker|] + content[i + |CashuMarker|..end];
    if end < |content| {
      assert content[end..end + |CashuMarker|] == rest[|t|..|t| + |CashuMarker|];
    }
  }

  /** A message that ends with the marker (and has no earlier one) carries an
      empty token, so no redeem button is offered for it. */
  lemma {:induction false} TrailingMarkerGivesEmptyToken(text: string, atob: string -> Option<string>)
    requires !Contains(text, CashuMarker)
    ensures TokenAfterCashuA(text + CashuMarker) == Some("")
    ensures !CanDecodeToken(TokenAfterCashuA(text + CashuMarker), atob)
  {
    var s := text + CashuMarker;
    var n := |text|;
    assert MatchAt(s, CashuMarker, n);
    // No occurrence starts before |text|: one wholly inside `text` is excluded by
    // the requires, and one straddling the boundary would need a 'c' (the
    // marker's first character, found nowhere else in it) strictly inside it.
    forall k | 0 <= k < n ensures !MatchAt(s, CashuMarker, k) {
      if k + |CashuMarker| <= n {
        assert s[k..k + |CashuMarker|] == text[k..k + |CashuMarker|];
        assert !MatchAt(text, CashuMarker, k);
      } else {
        assert s[n] == 'c' && CashuMarker[n - k] != 'c';
        assert s[k..k + |CashuMarker|][n - k] == s[n];
      }
    }
    assert IndexOf(s, CashuMarker) == Some(n);
    TokenShape(s);
  }

  /** Two markers in a row at the start give an empty token too. */
  lemma DoubleMarkerGivesEmptyToken(tail: string, atob: string -> Option<string>)
    ensures TokenAfterCashuA(CashuMarker + CashuMarker + tail) == Some("")
    ensures !CanDecodeToken(TokenAfterCashuA(CashuMarker + CashuMarker + tail), atob)
  {
    var s := CashuMarker + CashuMarker + tail;
    assert MatchAt(s, CashuMarker, 0);
    assert IndexOf(s, CashuMarker) == Some(0);
    var rest := s[|CashuMarker|..];
    assert rest == CashuMarker + tail;
    assert MatchAt(rest, CashuMarker, 0);
    assert IndexOf(rest, CashuMarker) == Some(0);
    SplitHead(rest, CashuMarker);
    assert Split(s, CashuMarker) == [s[..0]] + Split(rest, CashuMarker);
  }

  /** The redeem button is offered exactly when the content holds the marker and
      its token is non-empty and decodes; it is handed that token; the content is
      always shown as it is. */
  lemma RedeemShownIff(m: MessageEvent, chat: string, decryptedNpub: Option<string>, atob: string -> Option<string>)
    requires chat != ""
    ensures var r := Render(Some(m), Some(chat), decryptedNpub, atob);
            && r.Some?
            && r.value.text == m.content
            && (r.value.redeemToken.Some? <==>
                  Contains(m.content, CashuMarker)
                  && TokenAfterCashuA(m.content).value != ""
                  && atob(TokenAfterCashuA(m.content).value).Some?)
            && (r.value.redeemToken.Some? ==> r.value.redeemToken == TokenAfterCashuA(m.content))
  {
  }

  /** The user's own message is right-aligned even when the user's key is also
      the counterpart's; the counterpart's goes left; anyone else's gets none. */
  lemma AlignmentRule(m: MessageEvent, chat: string, decryptedNpub: Option<string>, atob: string -> Option<string>)
    requires chat != ""
    ensures var a := Render(Some(m), Some(chat), decryptedNpub, atob).value.alignment;
            && (a == JustifyEnd <==> decryptedNpub == Some(m.pubkey))
            && (a == JustifyStart <==> decryptedNpub != Some(m.pubkey) && m.pubkey == chat)
            && (a == Unaligned <==> decryptedNpub != Some(m.pubkey) && m.pubkey != chat)
  {
  }

  /** Bubble style and timestamp side depend only on whether the user sent the
      message: two messages with the same answer look the same in both. */
  lemma StyleDependsOnlyOnSender(
    m1: MessageEvent, m2: MessageEvent, chat1: string, chat2: string,
    decryptedNpub: Option<string>, atob: string -> Option<string>)
    requires chat1 != "" && chat2 != ""
    requires (decryptedNpub == Some(m1.pubkey)) == (decryptedNpub == Some(m2.pubkey))
    ensures var r1 := Render(Some(m1), Some(chat1), decryptedNpub, atob).value;
            var r2 := Render(Some(m2), Some(chat2), decryptedNpub, atob).value;
            r1.bubble == r2.bubble && r1.timestampSide == r2.timestampSide
    ensures Render(Some(m1), Some(chat1), decryptedNpub, atob).value.bubble == OwnBubble
            <==> decryptedNpub == Some(m1.pubkey)
    ensures Render(Some(m1), Some(chat1), decryptedNpub, atob).value.timestampSide == Right
            <==> decryptedNpub == Some(m1.pubkey)
  {
  }
}
