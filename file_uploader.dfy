/** The image-upload button: file-type validation, the choice of one signing
    strategy from the sign-in method, the remote-signer ("amber") handshake over
    the clipboard, the choice of the uploaded image's URL, and the
    loading/click guard of the button.

    Every foreign call is a parameter: key derivation, local signing, the
    browser extension, JSON encoding and parsing, the clipboard, and the image
    host. A call's observable behaviour is its trace of effects. */
module FileUploader {
  import opened Common
  import opened Strings

  datatype File = File(name: string, mimeType: string)

  datatype UnsignedEvent = UnsignedEvent(kind: int, content: string, tags: seq<seq<string>>, createdAt: int)
  datatype SignedEvent = SignedEvent(event: UnsignedEvent, id: string, pubkey: string, sig: string)

  /** The outcome of a signer: a signed event, or a rejection. */
  datatype SignOutcome = SignedOk(event: SignedEvent) | SignFailed(error: Thrown)

  /** One `{url}` record of the image host's answer; a missing url reads as "". */
  datatype UploadResult = UploadResult(url: string)

  /** The image host's answer to the upload, or the exception it raised. */
  datatype HostReply = Reply(results: seq<UploadResult>) | HostFailed(error: Thrown)

  /** One `navigator.clipboard.readText()`: the text, or a rejected read. */
  datatype ClipboardRead = ReadText(text: string) | ReadFailed

  /** What one poll of the clipboard observes: whether the page has focus, and
      what a read would return. */
  datatype PollInput = PollInput(focused: bool, read: ClipboardRead)

  /** The remote-signer promise: still pending, resolved with a parsed event, or
      rejected by the timeout. */
  datatype HandshakeState = Awaiting | Resolved(event: SignedEvent) | TimedOut

  /** The observable steps of one upload call. */
  datatype Effect =
    | SignLocally               // finalizeEvent with the key unlocked by the passphrase
    | AskExtension              // window.nostr.signEvent
    | WriteClipboard(text: string)
    | OpenWindow(url: string)   // window.open of the signer deep link
    | HostUpload(files: seq<File>, auth: SignedEvent)
    | Callback(url: string)     // imgCallbackOnUpload
    | Alert(message: string)

  /** The foreign collaborators of one call. */
  datatype Env = Env(
    authEvent: UnsignedEvent,                            // the event the upload helper asks to be signed
    nsecOf: string -> Derivation,                        // getNsecWithPassphrase
    localSign: (string, UnsignedEvent) -> SignedEvent,   // finalizeEvent(e, getPrivKeyWithPassphrase(p))
    extensionSign: UnsignedEvent -> SignOutcome,         // window.nostr.signEvent
    encodeEvent: UnsignedEvent -> string,                // encodeURIComponent(JSON.stringify(e))
    clipboardClear: Option<Thrown>,                      // rejection of writeText(""), if any
    clipboardPolls: seq<PollInput>,                      // what each clipboard poll observes, second by second
    parseEvent: string -> Option<SignedEvent>,           // JSON.parse, None for a throw
    host: (seq<File>, SignedEvent) -> HostReply,         // the image host
    callbackError: string -> Option<Thrown>)             // what imgCallbackOnUpload throws for a URL, if anything

  const OnlyImagesMessage: string := "Only images are supported"
  const InvalidPassphraseMessage: string := "Invalid passphrase!"
  const NoUrlMessage: string := "Image upload failed to yield img URL"
  const FailurePrefix: string := "Failed to upload image! "
  const AmberTimeoutMessage: string := "Amber signing timed out. Please try again."

  /** The deep link to the signer app, in the form of the "Usage for Web
      Applications" section of NIP-55 (Android Signer Application). */
  const AmberScheme: string := "nostrsigner:"
  const AmberQuery: string := "?compressionType=gzip&returnType=event&type=sign_event"

  const PollIntervalMs: nat := 1000
  const TimeoutMs: nat := 60000
  /** Whole poll intervals before the timeout fires. */
  const TimeoutSeconds: nat := TimeoutMs / PollIntervalMs

  // ---------------------------------------------------------------------------
  // Validation and the deep link

  /** `imgFile.type.includes("image")`: every `image/...` type passes, and so
      does any type naming "image" elsewhere; a type shorter than "image" fails. */
  function IsImage(f: File): (r: bool)
    ensures |f.mimeType| >= 5 && f.mimeType[..5] == "image" ==> r
    ensures r ==> |f.mimeType| >= 5
  {
    assert |f.mimeType| >= 5 && f.mimeType[..5] == "image" ==> MatchAt(f.mimeType, "image", 0);
    Contains(f.mimeType, "image")
  }

  /** The type test is a substring test: "image" anywhere in the type passes. */
  lemma TypeTestIsSubstring(name: string, before: string, after: string)
    ensures IsImage(File(name, before + "image" + after))
  {
    var t := before + "image" + after;
    assert t[|before|..|before| + 5] == "image";
    assert MatchAt(t, "image", |before|);
  }

  /** `!imageFiles.some((imgFile) => !imgFile.type.includes("image"))`, read
      from the first file: every file passes the type test (vacuously true of
      no files). */
  function AllImages(files: seq<File>): (r: bool)
    ensures r <==> forall i :: 0 <= i < |files| ==> IsImage(files[i])
  {
    if files == [] then true
    else IsImage(files[0]) && AllImages(files[1..])
  }

  /** The deep link: scheme, the encoded event, and the fixed query; each part
      can be read back from the link. */
  function AmberSignerUrl(encodedEvent: string): (url: string)
    ensures |url| == |AmberScheme| + |encodedEvent| + |AmberQuery|
    ensures url[..|AmberScheme|] == AmberScheme
    ensures url[|AmberScheme|..|AmberScheme| + |encodedEvent|] == encodedEvent
    ensures url[|AmberScheme| + |encodedEvent|..] == AmberQuery
  {
    AmberScheme + encodedEvent + AmberQuery
  }

  // ---------------------------------------------------------------------------
  // The remote-signer handshake

  /** The text that stops the polling: read while focused, and non-empty. */
  function StopText(p: PollInput): (r: Option<string>)
    ensures r.Some? <==> p.focused && p.read.ReadText? && p.read.text != ""
    ensures r.Some? ==> r.value == p.read.text
  {
    if p.focused && p.read.ReadText? && p.read.text != "" then Some(p.read.text) else None
  }

  /** What the poll at second `t` observes; beyond the given trace the page is
      taken to be unfocused. */
  function PollAt(polls: seq<PollInput>, t: nat): PollInput {
    if t < |polls| then polls[t] else PollInput(false, ReadFailed)
  }

  /** The settled outcome once polls `t`, `t+1`, ... up to the timeout are still
      to run: the first stopping text resolves the promise if it parses, and
      otherwise only the timeout settles it. */
  function OutcomeFrom(polls: seq<PollInput>, parse: string -> Option<SignedEvent>, t: nat): (r: HandshakeState)
    ensures r != Awaiting
    decreases TimeoutSeconds - t
  {
    if t >= TimeoutSeconds then TimedOut
    else match StopText(PollAt(polls, t))
      case Some(text) => (match parse(text) case Some(e) => Resolved(e) case None => TimedOut)
      case None => OutcomeFrom(polls, parse, t + 1)
  }

  /** The handshake's outcome: polls at seconds 0 to 59 (the immediate
      `checkClipboard()` and the interval), then the timeout. */
  function HandshakeOutcome(polls: seq<PollInput>, parse: string -> Option<SignedEvent>): (r: HandshakeState)
    ensures r != Awaiting
    ensures r.Resolved? ==>
              exists u :: 0 <= u < TimeoutSeconds && StopText(PollAt(polls, u)).Some?
                && parse(StopText(PollAt(polls, u)).value) == Some(r.event)
  {
    var r := OutcomeFrom(polls, parse, 0);
    if r.Resolved? then ResolvedIffFirstPayloadParses(polls, parse, 0, r.event); r else r
  }

  /** The outcome a handshake reaches once its polling has stopped: a pending
      promise is left to the timeout. */
  function Eventual(s: HandshakeState): HandshakeState {
    if s == Awaiting then TimedOut else s
  }

  /** The handshake state of one `nostrBuildUploadImages` signer callback: the
      promise, whether the polling interval is still registered, and the whole
      seconds since the deep link was opened. */
  class AmberHandshake {
    const parse: string -> Option<SignedEvent>
    var state: HandshakeState
    var polling: bool
    var elapsed: nat

    ghost predicate Valid()
      reads this
    {
      && elapsed <= TimeoutSeconds
      && (polling ==> state == Awaiting)
      && (state == TimedOut ==> elapsed == TimeoutSeconds)
      && (elapsed == TimeoutSeconds ==> !polling && state != Awaiting)
    }

    /** Right after the link is opened: pending, interval registered, no time elapsed. */
    constructor (parse: string -> Option<SignedEvent>)
      ensures Valid() && this.parse == parse
      ensures state == Awaiting && polling && elapsed == 0
    {
      this.parse := parse;
      state := Awaiting;
      polling := true;
      elapsed := 0;
    }

    /** One run of `checkClipboard`. Once the interval is cleared it no longer
        runs; unfocused, or on a failed or empty read, nothing changes; a
        non-empty read stops the interval and resolves the promise if the text
        parses, leaving it pending otherwise. */
    method Poll(input: PollInput)
      requires Valid()
      modifies this
      ensures Valid() && elapsed == old(elapsed)
      ensures old(state) != Awaiting ==> state == old(state)
      ensures !input.focused ==> state == old(state) && polling == old(polling)
      ensures old(polling) && StopText(input).Some? ==>
                !polling && state == (match parse(input.read.text) case Some(e) => Resolved(e) case None => Awaiting)
      ensures !(old(polling) && StopText(input).Some?) ==> state == old(state) && polling == old(polling)
    {
      if !polling || !input.focused {
        return;
      }
      match input.read
      case ReadFailed =>
        // the read error is logged and the interval keeps running
      case ReadText(text) =>
        if text != "" {
          polling := false;
          match parse(text)
          case Some(e) => state := Resolved(e);
          case None =>
            // JSON.parse threw inside the same try: logged, promise still pending
        }
    }

    /** One second passes; at the timeout the interval is cleared and the
        rejection settles the promise unless it is already settled. */
    method Tick()
      requires Valid()
      modifies this
      ensures Valid()
      ensures old(state) != Awaiting ==> state == old(state)
      ensures old(elapsed) == TimeoutSeconds ==> elapsed == old(elapsed) && state == old(state) && polling == old(polling)
      ensures old(elapsed) < TimeoutSeconds ==> elapsed == old(elapsed) + 1
      ensures elapsed < TimeoutSeconds ==> state == old(state) && polling == old(polling)
      ensures old(elapsed) < TimeoutSeconds == elapsed ==>
                !polling && state == (if old(state) == Awaiting then TimedOut else old(state))
    {
      if elapsed < TimeoutSeconds {
        elapsed := elapsed + 1;
        if elapsed == TimeoutSeconds {
          polling := false;
          if state == Awaiting {
            state := TimedOut;
          }
        }
      }
    }
  }

  /** Runs the handshake to its end: the immediate poll, then one tick and one
      interval poll per second until the timeout. */
  method RunHandshake(polls: seq<PollInput>, parse: string -> Option<SignedEvent>) returns (outcome: HandshakeState)
    ensures outcome == HandshakeOutcome(polls, parse)
  {
    var h := new AmberHandshake(parse);
    h.Poll(PollAt(polls, 0));
    while h.elapsed < TimeoutSeconds
      invariant h.Valid() && h.parse == parse
      invariant h.polling ==> OutcomeFrom(polls, parse, 0) == OutcomeFrom(polls, parse, h.elapsed + 1)
      invariant !h.polling ==> OutcomeFrom(polls, parse, 0) == Eventual(h.state)
      decreases TimeoutSeconds - h.elapsed
    {
      h.Tick();
      if h.elapsed < TimeoutSeconds {
        h.Poll(PollAt(polls, h.elapsed));
      }
    }
    outcome := h.state;
  }

  /** The handshake resolves with `e` exactly when some poll before the timeout
      is the first to read a non-empty text while focused, and that text parses
      to `e`. */
  lemma {:induction false} ResolvedIffFirstPayloadParses(
    polls: seq<PollInput>, parse: string -> Option<SignedEvent>, t: nat, e: SignedEvent)
    ensures OutcomeFrom(polls, parse, t) == Resolved(e) <==>
              exists u :: t <= u < TimeoutSeconds
                && (forall v :: t <= v < u ==> StopText(PollAt(polls, v)).None?)
                && StopText(PollAt(polls, u)).Some?
                && parse(StopText(PollAt(polls, u)).value) == Some(e)
    decreases TimeoutSeconds - t
  {
    if t < TimeoutSeconds {
      ResolvedIffFirstPayloadParses(polls, parse, t + 1, e);
      if StopText(PollAt(polls, t)).None? {
        if OutcomeFrom(polls, parse, t) == Resolved(e) {
          var u :| t + 1 <= u < TimeoutSeconds
                && (forall v :: t + 1 <= v < u ==> StopText(PollAt(polls, v)).None?)
                && StopText(PollAt(polls, u)).Some?
                && parse(StopText(PollAt(polls, u)).value) == Some(e);
          assert forall v :: t <= v < u ==> StopText(PollAt(polls, v)).None?;
        }
      }
    }
  }

  /** Without a focused non-empty read before the timeout, the handshake times out. */
  lemma TimesOutWithoutPayload(polls: seq<PollInput>, parse: string -> Option<SignedEvent>)
    requires forall u :: 0 <= u < TimeoutSeconds ==> StopText(PollAt(polls, u)).None?
    ensures HandshakeOutcome(polls, parse) == TimedOut
  {
  }

  /** Once the first non-empty text fails to parse, a valid payload in a later
      poll is never read: the handshake times out. */
  lemma UnparseableFirstPayloadTimesOut(polls: seq<PollInput>, parse: string -> Option<SignedEvent>, u: nat)
    requires u < TimeoutSeconds
    requires forall v :: 0 <= v < u ==> StopText(PollAt(polls, v)).None?
    requires StopText(PollAt(polls, u)).Some? && parse(StopText(PollAt(polls, u)).value).None?
    ensures HandshakeOutcome(polls, parse) == TimedOut
  {
    var r := HandshakeOutcome(polls, parse);
    if r.Resolved? {
      ResolvedIffFirstPayloadParses(polls, parse, 0, r.event);
    }
  }

  /** The outcome depends on the polls only through their stopping texts. */
  lemma {:induction false} OutcomeDependsOnlyOnStopTexts(
    p1: seq<PollInput>, p2: seq<PollInput>, parse: string -> Option<SignedEvent>, t: nat)
    requires forall u :: t <= u < TimeoutSeconds ==> StopText(PollAt(p1, u)) == StopText(PollAt(p2, u))
    ensures OutcomeFrom(p1, parse, t) == OutcomeFrom(p2, parse, t)
    decreases TimeoutSeconds - t
  {
    if t < TimeoutSeconds {
      OutcomeDependsOnlyOnStopTexts(p1, p2, parse, t + 1);
    }
  }

  /** Whatever the clipboard holds, a poll while the page is unfocused does not
      affect the outcome. */
  lemma UnfocusedPollIsIgnored(polls: seq<PollInput>, parse: string -> Option<SignedEvent>, t: nat, read: ClipboardRead)
    requires t < |polls| && !polls[t].focused
    ensures HandshakeOutcome(polls[t := PollInput(false, read)], parse) == HandshakeOutcome(polls, parse)
  {
    var p2 := polls[t := PollInput(false, read)];
    forall u | 0 <= u < TimeoutSeconds ensures StopText(PollAt(polls, u)) == StopText(PollAt(p2, u)) {
    }
    OutcomeDependsOnlyOnStopTexts(polls, p2, parse, 0);
  }

  /** A failed clipboard read is swallowed: it acts as an empty clipboard. */
  lemma ReadErrorActsAsEmptyClipboard(polls: seq<PollInput>, parse: string -> Option<SignedEvent>, t: nat)
    requires t < |polls| && polls[t].read == ReadFailed
    ensures HandshakeOutcome(polls[t := PollInput(polls[t].focused, ReadText(""))], parse)
            == HandshakeOutcome(polls, parse)
  {
    var p2 := polls[t := PollInput(polls[t].focused, ReadText(""))];
    forall u | 0 <= u < TimeoutSeconds ensures StopText(PollAt(polls, u)) == StopText(PollAt(p2, u)) {
    }
    OutcomeDependsOnlyOnStopTexts(polls, p2, parse, 0);
  }

  // ---------------------------------------------------------------------------
  // uploadImages

  /** The catch block: an `Error` becomes one alert; any other thrown value is dropped. */
  function Caught(e: Thrown): (r: seq<Effect>)
    ensures e.ErrorObject? ==> r == [Alert(FailurePrefix + e.message)]
    ensures e.NonErrorValue? ==> r == []
  {
    match e
    case ErrorObject(m) => [Alert(FailurePrefix + m)]
    case NonErrorValue => []
  }

  /** What follows a call of `imgCallbackOnUpload`: nothing, or the catch
      block's handling of what it threw. */
  function AfterCallback(thrown: Option<Thrown>): (r: seq<Effect>)
    ensures thrown.None? || thrown == Some(NonErrorValue) ==> r == []
    ensures thrown.Some? && thrown.value.ErrorObject? ==> r == [Alert(FailurePrefix + thrown.value.message)]
  {
    match thrown
    case None => []
    case Some(e) => Caught(e)
  }

  /** The first URL of the host's answer goes to the callback when it is
      non-empty, and an `Error` the callback throws is then alerted; otherwise
      the no-URL alert. */
  function SelectUrl(results: seq<UploadResult>, callbackError: string -> Option<Thrown>): (r: seq<Effect>)
    ensures r != [] && IsOutcome(r[0])
    ensures r[0].Callback? <==> |results| > 0 && results[0].url != ""
    ensures r[0].Callback? ==> r == [Callback(results[0].url)] + AfterCallback(callbackError(results[0].url))
    ensures r[0].Alert? ==> r == [Alert(NoUrlMessage)]
  {
    if |results| > 0 && results[0].url != "" then
      [Callback(results[0].url)] + AfterCallback(callbackError(results[0].url))
    else [Alert(NoUrlMessage)]
  }

  /** A callback or alert only at the end: as the last step, or as a callback
      right before the alert of the `Error` that callback threw. */
  predicate OutcomesAtEnd(r: seq<Effect>, callbackError: string -> Option<Thrown>) {
    forall i :: 0 <= i < |r| - 1 && IsOutcome(r[i]) ==>
      && i == |r| - 2 && r[i].Callback?
      && callbackError(r[i].url).Some? && callbackError(r[i].url).value.ErrorObject?
      && r[i + 1] == Alert(FailurePrefix + callbackError(r[i].url).value.message)
  }

  /** The upload helper after its signer has run, then the URL selection. */
  function AfterSigning(
    files: seq<File>, signed: SignOutcome,
    host: (seq<File>, SignedEvent) -> HostReply, callbackError: string -> Option<Thrown>): (r: seq<Effect>)
    ensures forall i :: 0 <= i < |r| ==> !IsSigning(r[i])
    ensures forall i :: 0 <= i < |r| && r[i].HostUpload? ==> i == 0
    ensures OutcomesAtEnd(r, callbackError)
    ensures signed != SignFailed(NonErrorValue)
            && (signed.SignedOk? ==> host(files, signed.event) != HostFailed(NonErrorValue))
            ==> r != [] && IsOutcome(r[|r| - 1])
    ensures forall i :: 0 <= i < |r| && r[i].Callback? ==>
              && i == 1 && r[0].HostUpload?
              && r[i].url != ""
              && host(r[0].files, r[0].auth).Reply?
              && |host(r[0].files, r[0].auth).results| > 0
              && host(r[0].files, r[0].auth).results[0].url == r[i].url
    // a rejected signer: its `Error` is alerted, and nothing is uploaded
    ensures signed.SignFailed? ==> r == Caught(signed.error)
    // a signed event is uploaded with the call's files
    ensures signed.SignedOk? ==> r != [] && r[0] == HostUpload(files, signed.event)
    ensures signed.SignedOk? && host(files, signed.event).HostFailed? ==>
              r == [HostUpload(files, signed.event)] + Caught(host(files, signed.event).error)
    // a first URL that is non-empty reaches the callback
    ensures signed.SignedOk? && host(files, signed.event).Reply?
            && |host(files, signed.event).results| > 0 && host(files, signed.event).results[0].url != ""
            ==> var url := host(files, signed.event).results[0].url;
                r == [HostUpload(files, signed.event), Callback(url)] + AfterCallback(callbackError(url))
    // a missing or empty first URL is the no-URL alert
    ensures signed.SignedOk? && host(files, signed.event).Reply?
            && !(|host(files, signed.event).results| > 0 && host(files, signed.event).results[0].url != "")
            ==> r == [HostUpload(files, signed.event), Alert(NoUrlMessage)]
  {
    match signed
    case SignFailed(e) => Caught(e)
    case SignedOk(ev) =>
      [HostUpload(files, ev)] +
      match host(files, ev)
      case HostFailed(e) => Caught(e)
      case Reply(results) => SelectUrl(results, callbackError)
  }

  /** The remote signer: clear the clipboard, open the deep link, then the
      handshake; a timeout is an `Error` with the timeout message. A rejected
      clipboard write stops it before the link is opened. */
  function AmberSigning(env: Env): (r: (seq<Effect>, SignOutcome))
    ensures env.clipboardClear.Some? ==> r == ([], SignFailed(env.clipboardClear.value))
    ensures env.clipboardClear.None? ==>
              r.0 == [WriteClipboard(""), OpenWindow(AmberSignerUrl(env.encodeEvent(env.authEvent)))]
    ensures env.clipboardClear.None? ==>
              (r.1.SignedOk? <==> HandshakeOutcome(env.clipboardPolls, env.parseEvent).Resolved?)
    ensures env.clipboardClear.None? && r.1.SignedOk? ==>
              HandshakeOutcome(env.clipboardPolls, env.parseEvent) == Resolved(r.1.event)
    ensures env.clipboardClear.None? && r.1.SignFailed? ==> r.1.error == ErrorObject(AmberTimeoutMessage)
  {
    match env.clipboardClear
    case Some(e) => ([], SignFailed(e))
    case None =>
      ([WriteClipboard(""), OpenWindow(AmberSignerUrl(env.encodeEvent(env.authEvent)))],
       match HandshakeOutcome(env.clipboardPolls, env.parseEvent)
       case Resolved(ev) => SignedOk(ev)
       case _ => SignFailed(ErrorObject(AmberTimeoutMessage)))
  }

  predicate IsSigning(e: Effect) {
    e.SignLocally? || e.AskExtension? || e.OpenWindow?
  }

  predicate IsOutcome(e: Effect) {
    e.Callback? || e.Alert?
  }

  /** No collaborator of the call throws anything but an `Error`. */
  ghost predicate OnlyErrorsThrown(files: seq<File>, passphrase: string, env: Env) {
    && env.nsecOf(passphrase) != DerivationThrew(NonErrorValue)
    && env.extensionSign(env.authEvent) != SignFailed(NonErrorValue)
    && env.clipboardClear != Some(NonErrorValue)
    && forall ev :: env.host(files, ev) != HostFailed(NonErrorValue)
  }

  /** The passphrase test of the local-key branch: a non-empty passphrase whose
      derivation returns a non-empty key; a derivation that throws never passes. */
  function PassphraseAccepted(passphrase: string, nsecOf: string -> Derivation): (r: bool)
    ensures r ==> passphrase != ""
    ensures nsecOf(passphrase).DerivationThrew? || nsecOf(passphrase).NoNsec? ==> !r
    ensures passphrase != "" && nsecOf(passphrase).Nsec? ==> (r <==> nsecOf(passphrase).text != "")
  {
    passphrase != "" && Truthy(nsecOf(passphrase))
  }

  /** The effects of one `uploadImages` call. */
  function UploadTrace(files: seq<File>, signInMethod: string, passphrase: string, env: Env): (r: seq<Effect>)
    // a non-image file (by the substring test) stops the call before any signer or upload
    ensures !AllImages(files) ==> r == [Alert(FailurePrefix + OnlyImagesMessage)]
    // a local-key call with an empty or rejected passphrase stops before any signer or upload
    ensures (&& AllImages(files) && signInMethod == "nsec" && !PassphraseAccepted(passphrase, env.nsecOf)
             && (passphrase == "" || !env.nsecOf(passphrase).DerivationThrew?))
            ==> r == [Alert(FailurePrefix + InvalidPassphraseMessage)]
    // a derivation that throws is caught like any other exception, with its own message
    ensures AllImages(files) && signInMethod == "nsec" && passphrase != "" && env.nsecOf(passphrase).DerivationThrew?
            ==> r == Caught(env.nsecOf(passphrase).error)
    // a rejected extension signer is asked once, and its rejection is caught
    ensures AllImages(files) && signInMethod == "extension" && env.extensionSign(env.authEvent).SignFailed?
            ==> r == [AskExtension] + Caught(env.extensionSign(env.authEvent).error)
    // any other method runs nothing and ends in the no-URL alert
    ensures AllImages(files) && signInMethod !in {"nsec", "extension", "amber"} ==> r == [Alert(NoUrlMessage)]
  {
    if !AllImages(files) then Caught(ErrorObject(OnlyImagesMessage))
    else if signInMethod == "nsec" then
      if passphrase == "" then Caught(ErrorObject(InvalidPassphraseMessage))
      else match env.nsecOf(passphrase)
        case DerivationThrew(e) => Caught(e)
        case _ =>
          if !Truthy(env.nsecOf(passphrase)) then Caught(ErrorObject(InvalidPassphraseMessage))
          else [SignLocally] + AfterSigning(files, SignedOk(env.localSign(passphrase, env.authEvent)), env.host, env.callbackError)
    else if signInMethod == "extension" then
      [AskExtension] + AfterSigning(files, env.extensionSign(env.authEvent), env.host, env.callbackError)
    else if signInMethod == "amber" then
      var (steps, signed) := AmberSigning(env);
      steps + AfterSigning(files, signed, env.host, env.callbackError)
    else [Alert(NoUrlMessage)]
  }

  /** At most one signing step. */
  predicate AtMostOneSigning(r: seq<Effect>) {
    forall i, j :: 0 <= i < j < |r| ==> !(IsSigning(r[i]) && IsSigning(r[j]))
  }

  /** The upload to the host comes right after a signing step. */
  predicate UploadFollowsSigning(r: seq<Effect>) {
    forall i :: 0 <= i < |r| && r[i].HostUpload? ==> i > 0 && IsSigning(r[i - 1])
  }

  /** No callback or alert before the last step. */
  predicate OutcomeOnlyLast(r: seq<Effect>) {
    forall i :: 0 <= i < |r| - 1 ==> !IsOutcome(r[i])
  }

  /** Every callback carries the first, non-empty URL of the host's answer to
      the upload just before it. */
  predicate CallbackFromHost(r: seq<Effect>, host: (seq<File>, SignedEvent) -> HostReply) {
    forall i :: 0 <= i < |r| && r[i].Callback? ==>
      && i > 0 && r[i - 1].HostUpload?
      && r[i].url != ""
      && host(r[i - 1].files, r[i - 1].auth).Reply?
      && |host(r[i - 1].files, r[i - 1].auth).results| > 0
      && host(r[i - 1].files, r[i - 1].auth).results[0].url == r[i].url
  }

  /** The properties `AfterSigning` promises of what follows a signing step. */
  predicate SigningTail(a: seq<Effect>, host: (seq<File>, SignedEvent) -> HostReply, callbackError: string -> Option<Thrown>) {
    && (forall i :: 0 <= i < |a| ==> !IsSigning(a[i]))
    && (forall i :: 0 <= i < |a| && a[i].HostUpload? ==> i == 0)
    && OutcomesAtEnd(a, callbackError)
    && (forall i :: 0 <= i < |a| && a[i].Callback? ==>
          && i == 1 && a[0].HostUpload?
          && a[i].url != ""
          && host(a[0].files, a[0].auth).Reply?
          && |host(a[0].files, a[0].auth).results| > 0
          && host(a[0].files, a[0].auth).results[0].url == a[i].url)
  }

  /** A signing step, after steps that are neither signing, upload nor
      outcome, followed by such a tail keeps every shape property. */
  lemma PrefixTailShape(
    prefix: seq<Effect>, a: seq<Effect>,
    host: (seq<File>, SignedEvent) -> HostReply, callbackError: string -> Option<Thrown>)
    requires prefix != [] && IsSigning(prefix[|prefix| - 1])
    requires forall i :: 0 <= i < |prefix| - 1 ==> !IsSigning(prefix[i]) && !prefix[i].HostUpload? && !IsOutcome(prefix[i])
    requires SigningTail(a, host, callbackError)
    ensures var r := prefix + a;
            && AtMostOneSigning(r) && UploadFollowsSigning(r)
            && OutcomesAtEnd(r, callbackError) && CallbackFromHost(r, host)
  {
    var r := prefix + a;
    var n := |prefix|;
    assert forall i :: n <= i < |r| ==> r[i] == a[i - n];
    assert forall i :: 0 <= i < n ==> r[i] == prefix[i];
    OutcomesAtEndAfterPrefix(prefix, a, callbackError);
  }

  /** A signing step followed by what the upload helper does after it keeps
      every shape property. */
  lemma SignedPrefixShape(
    prefix: seq<Effect>, files: seq<File>, signed: SignOutcome,
    host: (seq<File>, SignedEvent) -> HostReply, callbackError: string -> Option<Thrown>)
    requires prefix != [] && IsSigning(prefix[|prefix| - 1])
    requires forall i :: 0 <= i < |prefix| - 1 ==> !IsSigning(prefix[i]) && !prefix[i].HostUpload? && !IsOutcome(prefix[i])
    ensures var r := prefix + AfterSigning(files, signed, host, callbackError);
            && AtMostOneSigning(r) && UploadFollowsSigning(r)
            && OutcomesAtEnd(r, callbackError) && CallbackFromHost(r, host)
  {
    PrefixTailShape(prefix, AfterSigning(files, signed, host, callbackError), host, callbackError);
  }

  /** Steps with no outcome in front of a trace keep its outcomes at the end. */
  lemma OutcomesAtEndAfterPrefix(prefix: seq<Effect>, a: seq<Effect>, callbackError: string -> Option<Thrown>)
    requires forall i :: 0 <= i < |prefix| ==> !IsOutcome(prefix[i])
    requires OutcomesAtEnd(a, callbackError)
    ensures OutcomesAtEnd(prefix + a, callbackError)
  {
    var r := prefix + a;
    var n := |prefix|;
    forall i | 0 <= i < |r| - 1 && IsOutcome(r[i])
      ensures && i == |r| - 2 && r[i].Callback?
              && callbackError(r[i].url).Some? && callbackError(r[i].url).value.ErrorObject?
              && r[i + 1] == Alert(FailurePrefix + callbackError(r[i].url).value.message)
    {
      assert i >= n && r[i] == a[i - n] && r[i + 1] == a[i - n + 1];
    }
  }

  /** Every call's trace: at most one signing step; an upload only right after
      one; a callback or alert only at the end; a callback only with the host's
      first, non-empty URL. */
  lemma UploadTraceShape(files: seq<File>, signInMethod: string, passphrase: string, env: Env)
    ensures var r := UploadTrace(files, signInMethod, passphrase, env);
            && AtMostOneSigning(r) && UploadFollowsSigning(r) && OutcomesAtEnd(r, env.callbackError)
            && CallbackFromHost(r, env.host)
  {
    if AllImages(files) {
      if signInMethod == "nsec" && PassphraseAccepted(passphrase, env.nsecOf) {
        SignedPrefixShape([SignLocally], files, SignedOk(env.localSign(passphrase, env.authEvent)), env.host, env.callbackError);
      } else if signInMethod == "extension" {
        SignedPrefixShape([AskExtension], files, env.extensionSign(env.authEvent), env.host, env.callbackError);
      } else if signInMethod == "amber" && env.clipboardClear.None? {
        var (steps, signed) := AmberSigning(env);
        SignedPrefixShape(steps, files, signed, env.host, env.callbackError);
      }
    }
  }

  /** A signing step runs exactly when validation passes and a strategy can
      start: an accepted passphrase for the local key, always for the
      extension, and a cleared clipboard for the remote signer. */
  lemma SigningRunsIff(files: seq<File>, signInMethod: string, passphrase: string, env: Env)
    ensures var r := UploadTrace(files, signInMethod, passphrase, env);
            (exists i :: 0 <= i < |r| && IsSigning(r[i])) <==>
              AllImages(files) &&
              ((signInMethod == "nsec" && PassphraseAccepted(passphrase, env.nsecOf))
               || signInMethod == "extension"
               || (signInMethod == "amber" && env.clipboardClear.None?))
  {
    var r := UploadTrace(files, signInMethod, passphrase, env);
    if AllImages(files) {
      if signInMethod == "nsec" && PassphraseAccepted(passphrase, env.nsecOf) {
        assert IsSigning(r[0]);
      } else if signInMethod == "extension" {
        assert IsSigning(r[0]);
      } else if signInMethod == "amber" && env.clipboardClear.None? {
        assert IsSigning(r[1]);
      }
    }
  }

  /** The chosen strategy signs the authorization event and yields `ev`: the
      local key with an accepted passphrase, the extension's answer, or the
      remote signer's handshake after a cleared clipboard. */
  predicate SignsWith(signInMethod: string, passphrase: string, env: Env, ev: SignedEvent) {
    || (signInMethod == "nsec" && PassphraseAccepted(passphrase, env.nsecOf)
        && ev == env.localSign(passphrase, env.authEvent))
    || (signInMethod == "extension" && env.extensionSign(env.authEvent) == SignedOk(ev))
    || (signInMethod == "amber" && env.clipboardClear.None?
        && HandshakeOutcome(env.clipboardPolls, env.parseEvent) == Resolved(ev))
  }

  /** The call's files are uploaded with `ev` exactly when they pass the type
      test and the strategy signs to `ev`; no other upload ever happens. */
  lemma UploadIffSigned(files: seq<File>, signInMethod: string, passphrase: string, env: Env, ev: SignedEvent)
    ensures var r := UploadTrace(files, signInMethod, passphrase, env);
            && (forall i :: 0 <= i < |r| && r[i].HostUpload? ==> r[i].files == files)
            && ((exists i :: 0 <= i < |r| && r[i] == HostUpload(files, ev)) <==>
                  AllImages(files) && SignsWith(signInMethod, passphrase, env, ev))
  {
    var r := UploadTrace(files, signInMethod, passphrase, env);
    if AllImages(files) && SignsWith(signInMethod, passphrase, env, ev) {
      if signInMethod == "amber" {
        assert r[2] == HostUpload(files, ev);
      } else {
        assert r[1] == HostUpload(files, ev);
      }
    }
  }

  /** A successful signing whose host answer starts with a non-empty URL ends
      the call with that upload and the callback receiving that URL, followed
      only by the alert of an `Error` the callback throws. */
  lemma SuccessfulUploadCallsBack(
    files: seq<File>, signInMethod: string, passphrase: string, env: Env,
    ev: SignedEvent, results: seq<UploadResult>)
    requires AllImages(files) && SignsWith(signInMethod, passphrase, env, ev)
    requires env.host(files, ev) == Reply(results) && |results| > 0 && results[0].url != ""
    ensures var r := UploadTrace(files, signInMethod, passphrase, env);
            var tail := [HostUpload(files, ev), Callback(results[0].url)] + AfterCallback(env.callbackError(results[0].url));
            |r| >= |tail| && r[|r| - |tail|..] == tail
  {
  }

  /** When nothing throws a value other than an `Error`, every call ends in a
      callback or alert, and the only earlier one is a callback whose thrown
      `Error` is then alerted; a callback that throws nothing makes the
      outcome unique. */
  lemma EveryCallEndsInOneOutcome(files: seq<File>, signInMethod: string, passphrase: string, env: Env)
    requires OnlyErrorsThrown(files, passphrase, env)
    ensures var r := UploadTrace(files, signInMethod, passphrase, env);
            r != [] && IsOutcome(r[|r| - 1]) && OutcomesAtEnd(r, env.callbackError)
    ensures var r := UploadTrace(files, signInMethod, passphrase, env);
            (forall i :: 0 <= i < |r| && r[i].Callback? ==> env.callbackError(r[i].url).None?) ==> OutcomeOnlyLast(r)
  {
    UploadTraceShape(files, signInMethod, passphrase, env);
  }

  /** `uploadImages`: the branch for the sign-in method sets the host's
      response, then the URL selection; every exception ends in the catch
      block. */
  method UploadImages(files: seq<File>, signInMethod: string, passphrase: string, env: Env)
    returns (effects: seq<Effect>)
    ensures effects == UploadTrace(files, signInMethod, passphrase, env)
  {
    effects := [];
    if !AllImages(files) {
      effects := Caught(ErrorObject(OnlyImagesMessage));
      return;
    }
    var signed: Option<SignOutcome> := None;
    if signInMethod == "nsec" {
      if passphrase == "" {
        effects := Caught(ErrorObject(InvalidPassphraseMessage));
        return;
      }
      var derived := env.nsecOf(passphrase);
      if derived.DerivationThrew? {
        effects := Caught(derived.error);
        return;
      }
      if !Truthy(derived) {
        effects := Caught(ErrorObject(InvalidPassphraseMessage));
        return;
      }
      effects := [SignLocally];
      signed := Some(SignedOk(env.localSign(passphrase, env.authEvent)));
    } else if signInMethod == "extension" {
      effects := [AskExtension];
      signed := Some(env.extensionSign(env.authEvent));
    } else if signInMethod == "amber" {
      var link := AmberSignerUrl(env.encodeEvent(env.authEvent));
      if env.clipboardClear.Some? {
        signed := Some(SignFailed(env.clipboardClear.value));
      } else {
        effects := [WriteClipboard(""), OpenWindow(link)];
        var outcome := RunHandshake(env.clipboardPolls, env.parseEvent);
        signed := Some(if outcome.Resolved? then SignedOk(outcome.event) else SignFailed(ErrorObject(AmberTimeoutMessage)));
      }
    }
    var response: Option<seq<UploadResult>> := None;
    if signed.Some? {
      match signed.value
      case SignFailed(e) =>
        effects := effects + Caught(e);
        return;
      case SignedOk(ev) =>
        effects := effects + [HostUpload(files, ev)];
        var reply := env.host(files, ev);
        if reply.HostFailed? {
          effects := effects + Caught(reply.error);
          return;
        }
        response := Some(reply.results);
    }
    if response.Some? && |response.value| > 0 && response.value[0].url != "" {
      var url := response.value[0].url;
      effects := effects + [Callback(url)];
      var thrown := env.callbackError(url);
      if thrown.Some? {
        effects := effects + Caught(thrown.value);
      }
    } else {
      effects := effects + [Alert(NoUrlMessage)];
    }
  }

  /** One PNG, extension signing that succeeds, and a host answering with a
      non-empty URL: the callback gets that URL and nothing is alerted. */
  lemma ExtensionUploadScenario(name: string, env: Env, ev: SignedEvent, url: string, more: seq<UploadResult>)
    requires env.extensionSign(env.authEvent) == SignedOk(ev)
    requires env.host([File(name, "image/png")], ev) == Reply([UploadResult(url)] + more)
    requires url != "" && env.callbackError(url).None?
    ensures UploadTrace([File(name, "image/png")], "extension", "", env)
            == [AskExtension, HostUpload([File(name, "image/png")], ev), Callback(url)]
  {
  }

  /** A callback that throws an `Error` is followed by the failure alert with
      its message, after the URL was already handed over. */
  lemma ThrowingCallbackIsAlerted(name: string, env: Env, ev: SignedEvent, url: string, message: string)
    requires env.extensionSign(env.authEvent) == SignedOk(ev)
    requires env.host([File(name, "image/jpeg")], ev) == Reply([UploadResult(url)])
    requires url != "" && env.callbackError(url) == Some(ErrorObject(message))
    ensures UploadTrace([File(name, "image/jpeg")], "extension", "", env)
            == [AskExtension, HostUpload([File(name, "image/jpeg")], ev), Callback(url),
                Alert(FailurePrefix + message)]
  {
  }

  /** The remote signer always clears the clipboard and then opens the deep
      link of the encoded event; a resolved handshake's event is what is
      uploaded, and otherwise the call ends in the timeout alert. */
  lemma AmberTraceShape(files: seq<File>, env: Env)
    requires AllImages(files) && env.clipboardClear.None?
    ensures var r := UploadTrace(files, "amber", "", env);
            && |r| >= 3
            && r[0] == WriteClipboard("")
            && r[1] == OpenWindow(AmberSignerUrl(env.encodeEvent(env.authEvent)))
            && (HandshakeOutcome(env.clipboardPolls, env.parseEvent).Resolved? ==>
                  r[2] == HostUpload(files, HandshakeOutcome(env.clipboardPolls, env.parseEvent).event))
            && (!HandshakeOutcome(env.clipboardPolls, env.parseEvent).Resolved? ==>
                  r == [r[0], r[1], Alert(FailurePrefix + AmberTimeoutMessage)])
  {
  }

  /** A rejected clipboard write ends the remote-signer call before the link
      is opened: only the catch block runs. */
  lemma AmberClipboardRejected(files: seq<File>, env: Env, e: Thrown)
    requires AllImages(files) && env.clipboardClear == Some(e)
    ensures UploadTrace(files, "amber", "", env) == Caught(e)
  {
  }

  /** A remote-signer call whose clipboard never yields a focused non-empty read
      clears the clipboard, opens the link, and ends in the timeout alert
      without uploading. */
  lemma AmberNeverAnsweredScenario(files: seq<File>, env: Env)
    requires AllImages(files) && env.clipboardClear.None?
    requires forall u :: 0 <= u < TimeoutSeconds ==> StopText(PollAt(env.clipboardPolls, u)).None?
    ensures UploadTrace(files, "amber", "", env)
            == [WriteClipboard(""), OpenWindow(AmberSignerUrl(env.encodeEvent(env.authEvent))),
                Alert(FailurePrefix + AmberTimeoutMessage)]
  {
    TimesOutWithoutPayload(env.clipboardPolls, env.parseEvent);
  }

  /** The upload button. `disabled`, the sign-in method and the passphrase are
      its inputs; `loading` is its state. */
  class FileUploaderButton {
    const disabled: bool
    const signInMethod: string
    const passphrase: string
    var loading: bool

    constructor (disabled: bool, signInMethod: string, passphrase: string)
      ensures this.disabled == disabled && this.signInMethod == signInMethod && this.passphrase == passphrase
      ensures !loading
    {
      this.disabled := disabled;
      this.signInMethod := signInMethod;
      this.passphrase := passphrase;
      loading := false;
    }

    /** `handleClick`: opens the file picker unless disabled or loading. */
    method HandleClick() returns (opensPicker: bool)
      ensures opensPicker <==> !disabled && !loading
    {
      if disabled || loading {
        return false;
      }
      return true;
    }

    /** The part of `handleChange` before its await: the button shows loading,
        so a click now opens nothing. */
    method BeginChange()
      modifies this
      ensures loading
    {
      loading := true;
    }

    /** The part of `handleChange` after its await. */
    method EndChange()
      modifies this
      ensures !loading
    {
      loading := false;
    }

    /** `handleChange`: loading while the upload runs, an upload only when
        files are present, and loading cleared at the end whatever happened.
        `clickOpensPickerDuringUpload` is the click guard of `handleClick`
        evaluated while the call is under way. */
    method HandleChange(files: Option<seq<File>>, env: Env)
      returns (effects: seq<Effect>, ghost clickOpensPickerDuringUpload: bool)
      modifies this
      ensures !loading
      ensures files.None? ==> effects == []
      ensures files.Some? ==> effects == UploadTrace(files.value, signInMethod, passphrase, env)
      ensures !clickOpensPickerDuringUpload
    {
      BeginChange();
      clickOpensPickerDuringUpload := !disabled && !loading;
      if files.Some? {
        effects := UploadImages(files.value, signInMethod, passphrase, env);
      } else {
        effects := [];
      }
      EndChange();
    }
  }

  /** While a change is being handled the button shows loading, so a click
      opens no second file picker, whether or not the button is disabled. */
  method ClickDuringUploadIsIgnored(disabled: bool, signInMethod: string, passphrase: string)
    returns (opensPicker: bool)
    ensures !opensPicker
  {
    var button := new FileUploaderButton(disabled, signInMethod, passphrase);
    button.BeginChange();
    opensPicker := button.HandleClick();
  }
}
