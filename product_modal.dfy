/** The product detail modal: the listing date guard, the share URL, which
    actions the viewer is offered, and the edit and delete flows with their
    state flags. */
module ProductModal {
  import opened Common

  const ListingPath: string := "/listing/"
  const CopiedMessage: string := "Listing URL copied to clipboard!"

  /** What the modal can render besides the listing itself: its buttons, the
      passphrase prompt, and the (separately shown) product form. */
  datatype Action = Share | EditListing | DeleteListing | ProductFormMounted | MessageSeller | ReviewAndPurchase | PassphrasePrompt

  /** What sharing does: the Web Share API with a title and URL, or a copy to
      the clipboard followed by an alert. */
  datatype ShareEffect =
    | NativeShare(title: string, url: string)
    | CopiedToClipboard(url: string, alertMessage: string)

  /** The steps of the delete flow, in order, as the parent sees them. */
  datatype DeleteStep =
    | DeleteLoadingSet(on: bool)
    | ModalToggled                                     // handleModalToggle
    | DeleteRequested(productId: string, passphrase: Option<string>)  // handleDelete

  /** `displayDate`: a zero or missing timestamp gives two empty strings;
      otherwise the locale's date and time of the timestamp in milliseconds. */
  function DisplayDate(timestamp: Option<int>, localeDateTime: int -> (string, string)): (r: (string, string))
    ensures timestamp.None? || timestamp == Some(0) ==> r == ("", "")
    ensures timestamp.Some? && timestamp.value != 0 ==> r == localeDateTime(timestamp.value * 1000)
  {
    match timestamp
    case None => ("", "")
    case Some(t) => if t == 0 then ("", "") else localeDateTime(t * 1000)
  }

  /** The listing's URL: the page origin, "/listing/" and the product id; the
      id is what follows the fixed path. */
  function ListingUrl(origin: string, productId: string): (url: string)
    ensures |url| == |origin| + |ListingPath| + |productId|
    ensures url[..|origin|] == origin
    ensures url[|origin|..|origin| + |ListingPath|] == ListingPath
    ensures url[|origin| + |ListingPath|..] == productId
  {
    origin + ListingPath + productId
  }

  /** `handleShare`: the native share when available, otherwise the clipboard
      copy and its alert; both carry the listing's URL. */
  function HandleShare(origin: string, productId: string, title: string, canShare: bool): (r: ShareEffect)
    ensures r.url == ListingUrl(origin, productId)
    ensures r.NativeShare? <==> canShare
    ensures r.NativeShare? ==> r.title == title
    ensures r.CopiedToClipboard? ==> r.alertMessage == CopiedMessage
  {
    var url := ListingUrl(origin, productId);
    if canShare then NativeShare(title, url) else CopiedToClipboard(url, CopiedMessage)
  }

  /** Within one origin, a shared URL names exactly one listing. */
  lemma ShareUrlIdentifiesListing(origin: string, id1: string, id2: string, title: string, c1: bool, c2: bool)
    requires HandleShare(origin, id1, title, c1).url == HandleShare(origin, id2, title, c2).url
    ensures id1 == id2
  {
    assert id1 == ListingUrl(origin, id1)[|origin| + |ListingPath|..];
  }

  /** The viewer owns the listing when the signed-in key equals the seller's;
      a viewer with no stored key owns nothing. */
  function IsOwner(decryptedNpub: Option<string>, pubkey: string): (r: bool)
    ensures decryptedNpub.None? ==> !r
    ensures decryptedNpub.Some? ==> (r <==> decryptedNpub.value == pubkey)
  {
    decryptedNpub == Some(pubkey)
  }

  const OwnerActions: set<Action> := {EditListing, DeleteListing, ProductFormMounted}
  const BuyerActions: set<Action> := {MessageSeller, ReviewAndPurchase}

  /** What the modal renders: nothing while it is closed; otherwise sharing,
      the passphrase prompt while it is requested, plus editing, deleting and
      the product form for the owner, or messaging and purchase for anyone
      else. */
  function Actions(showModal: bool, requestPassphrase: bool, decryptedNpub: Option<string>, pubkey: string): (r: set<Action>)
    ensures !showModal ==> r == {}
    ensures showModal ==> Share in r
    ensures PassphrasePrompt in r <==> showModal && requestPassphrase
    ensures showModal && IsOwner(decryptedNpub, pubkey) ==> OwnerActions <= r && r * BuyerActions == {}
    ensures showModal && !IsOwner(decryptedNpub, pubkey) ==> BuyerActions <= r && r * OwnerActions == {}
  {
    if !showModal then {}
    else
      {Share} + (if requestPassphrase then {PassphrasePrompt} else {})
      + (if IsOwner(decryptedNpub, pubkey) then OwnerActions else BuyerActions)
  }

  /** In an open modal exactly one of the owner's and the buyer's groups is
      rendered, decided by ownership alone. */
  lemma ActionsPartition(requestPassphrase: bool, decryptedNpub: Option<string>, pubkey: string)
    ensures var r := Actions(true, requestPassphrase, decryptedNpub, pubkey);
            && (OwnerActions <= r <==> IsOwner(decryptedNpub, pubkey))
            && (BuyerActions <= r <==> !IsOwner(decryptedNpub, pubkey))
            && (EditListing in r <==> MessageSeller !in r)
            && (DeleteListing in r <==> ReviewAndPurchase !in r)
            && r - {PassphrasePrompt} == {Share} + (if IsOwner(decryptedNpub, pubkey) then OwnerActions else BuyerActions)
  {
  }

  /** The steps of `finalizeDeleteListingProcess`. When the awaited
      `handleDelete` rejects, the rejection escapes before the loading flag is
      lowered again. */
  function DeleteSteps(productId: string, passphrase: Option<string>, deleteResolves: bool): (steps: seq<DeleteStep>)
    ensures |steps| == if deleteResolves then 4 else 3
    ensures steps[0] == DeleteLoadingSet(true)
    ensures deleteResolves <==> steps[|steps| - 1] == DeleteLoadingSet(false)
    ensures forall i :: 0 <= i < |steps| && steps[i].DeleteRequested? ==> steps[i] == DeleteRequested(productId, passphrase)
  {
    [DeleteLoadingSet(true), ModalToggled, DeleteRequested(productId, passphrase)]
      + (if deleteResolves then [DeleteLoadingSet(false)] else [])
  }

  /** `handleDelete` is requested at index `i` right after the modal closes,
      with the loading flag raised before it and not lowered before it. */
  predicate RequestedAtWhileLoading(s: seq<DeleteStep>, i: int, productId: string, passphrase: Option<string>) {
    && 0 < i < |s| && s[i] == DeleteRequested(productId, passphrase) && s[i - 1] == ModalToggled
    && (forall k :: 0 <= k < i ==> s[k] != DeleteLoadingSet(false))
    && (exists k :: 0 <= k < i && s[k] == DeleteLoadingSet(true))
  }

  /** At most one step of `s` requests a delete. */
  predicate AtMostOneRequest(s: seq<DeleteStep>) {
    forall i, j :: 0 <= i < j < |s| && s[i].DeleteRequested? ==> !s[j].DeleteRequested?
  }

  /** The delete flow calls `handleDelete` exactly once, right after closing
      the modal, and while the loading flag is up: the flag is raised before it
      and, if lowered, only after it. */
  lemma DeleteCalledOnceWhileLoading(productId: string, passphrase: Option<string>, deleteResolves: bool)
    ensures AtMostOneRequest(DeleteSteps(productId, passphrase, deleteResolves))
    ensures RequestedAtWhileLoading(DeleteSteps(productId, passphrase, deleteResolves), 2, productId, passphrase)
  {
    var s := DeleteSteps(productId, passphrase, deleteResolves);
    assert s[0] == DeleteLoadingSet(true);
  }

  /** The modal's state flags and the delete steps it has taken. */
  class DisplayProductModal {
    const productId: string
    const signIn: string
    var requestPassphrase: bool
    var deleteLoading: bool
    var showProductForm: bool
    var steps: seq<DeleteStep>

    constructor (productId: string, signIn: string)
      ensures this.productId == productId && this.signIn == signIn
      ensures !requestPassphrase && !deleteLoading && !showProductForm && steps == []
    {
      this.productId := productId;
      this.signIn := signIn;
      requestPassphrase := false;
      deleteLoading := false;
      showProductForm := false;
      steps := [];
    }

    /** `handleEditToggle`: flips whether the product form is shown. */
    method HandleEditToggle()
      modifies this
      ensures showProductForm == !old(showProductForm)
      ensures requestPassphrase == old(requestPassphrase) && deleteLoading == old(deleteLoading)
      ensures steps == old(steps)
    {
      showProductForm := !showProductForm;
    }

    /** `finalizeDeleteListingProcess`: loading on, close the modal, delete
        once with the given passphrase, loading off once the delete resolves. */
    method FinalizeDeleteListingProcess(passphrase: Option<string>, deleteResolves: bool)
      modifies this
      ensures steps == old(steps) + DeleteSteps(productId, passphrase, deleteResolves)
      ensures deleteLoading <==> !deleteResolves
      ensures requestPassphrase == old(requestPassphrase) && showProductForm == old(showProductForm)
    {
      deleteLoading := true;
      steps := steps + [DeleteLoadingSet(true)];
      steps := steps + [ModalToggled];
      steps := steps + [DeleteRequested(productId, passphrase)];
      if !deleteResolves {
        return;
      }
      deleteLoading := false;
      steps := steps + [DeleteLoadingSet(false)];
    }

    /** `beginDeleteListingProcess`: the extension deletes at once without a
        passphrase; the local key opens the passphrase prompt, whose submit
        runs the delete later; any other method does nothing. */
    method BeginDeleteListingProcess(deleteResolves: bool)
      modifies this
      ensures showProductForm == old(showProductForm)
      ensures signIn == "extension" ==>
                && steps == old(steps) + DeleteSteps(productId, None, deleteResolves)
                && requestPassphrase == old(requestPassphrase)
                && (deleteLoading <==> !deleteResolves)
      ensures signIn == "nsec" ==>
                steps == old(steps) && requestPassphrase && deleteLoading == old(deleteLoading)
      ensures signIn != "extension" && signIn != "nsec" ==>
                && steps == old(steps) && requestPassphrase == old(requestPassphrase)
                && deleteLoading == old(deleteLoading)
    {
      if signIn == "extension" {
        FinalizeDeleteListingProcess(None, deleteResolves);
      } else if signIn == "nsec" {
        requestPassphrase := true;
      }
    }
  }

  /** The owner's edit and delete buttons are disabled while a delete is
      loading; sharing, messaging, purchase and the form itself are not. */
  function Enabled(a: Action, deleteLoading: bool): (r: bool)
    ensures a in BuyerActions || a == Share || a == ProductFormMounted ==> r
    ensures a == EditListing || a == DeleteListing ==> (r <==> !deleteLoading)
  {
    !(deleteLoading && (a == EditListing || a == DeleteListing))
  }

  /** With the local key the delete runs in two steps: confirming opens the
      passphrase prompt, and the prompt's submit runs the same delete steps as
      the extension's, carrying the passphrase. */
  method NsecDeleteScenario(id: string, p: string, deleteResolves: bool) returns (m: DisplayProductModal)
    ensures m.requestPassphrase
    ensures m.steps == DeleteSteps(id, Some(p), deleteResolves)
    ensures m.steps[2] == DeleteRequested(id, Some(p))
  {
    m := new DisplayProductModal(id, "nsec");
    m.BeginDeleteListingProcess(deleteResolves);
    assert m.steps == [];
    m.FinalizeDeleteListingProcess(Some(p), deleteResolves);
  }

  /** With the extension, confirming deletes at once with no passphrase and
      never opens the prompt. */
  method ExtensionDeleteScenario(id: string) returns (m: DisplayProductModal)
    ensures !m.requestPassphrase && !m.deleteLoading
    ensures m.steps == [DeleteLoadingSet(true), ModalToggled, DeleteRequested(id, None), DeleteLoadingSet(false)]
  {
    m := new DisplayProductModal(id, "extension");
    m.BeginDeleteListingProcess(true);
  }
}
