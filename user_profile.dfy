/** The profile settings page: whether its save button is styled disabled, the
    default avatar, the effect that either asks for the passphrase or loads the
    stored profile into the form, the submit sequence, and which submit paths
    the disabled styling guards. */
module UserProfile {
  import opened Common
  import FileUploader

  const RobohashBase: string := "https://robohash.idena.io/"

  /** The form's initial values: every profile field empty. */
  const FormFields: seq<string> := ["banner", "picture", "display_name", "name", "nip05", "about", "website", "lud16"]

  /** A kind-0 profile record as the profile map holds it. */
  datatype ProfileEvent = ProfileEvent(pubkey: string, content: map<string, string>, createdAt: int)

  /** What `createNostrProfileEvent` is asked to publish. */
  datatype PublishRequest = PublishRequest(pubkey: string, content: map<string, string>, passphrase: string)

  /** `defaultImage`: the robohash URL of the user's key; the key is the part
      after the fixed base. */
  function DefaultImage(userPubkey: string): (url: string)
    ensures |url| == |RobohashBase| + |userPubkey|
    ensures url[..|RobohashBase|] == RobohashBase && url[|RobohashBase|..] == userPubkey
  {
    RobohashBase + userPubkey
  }

  /** Distinct keys get distinct default avatars. */
  lemma DefaultImageInjective(k1: string, k2: string)
    requires DefaultImage(k1) == DefaultImage(k2)
    ensures k1 == k2
  {
    assert k1 == DefaultImage(k1)[|RobohashBase|..];
  }

  /** `isButtonDisabled`: never for the extension, remote-signer and bunker
      methods; for any other method, an empty passphrase, or one whose
      derivation is falsy or throws. */
  function IsButtonDisabled(signInMethod: string, passphrase: string, nsecOf: string -> Derivation): (r: bool)
    ensures signInMethod in {"extension", "amber", "bunker"} ==> !r
    ensures signInMethod !in {"extension", "amber", "bunker"} ==>
              (r <==> passphrase == "" || !Truthy(nsecOf(passphrase)))
  {
    if signInMethod == "extension" || signInMethod == "amber" || signInMethod == "bunker" then false
    else if passphrase == "" then true
    else match nsecOf(passphrase)
      case DerivationThrew(_) => true
      case NoNsec => true
      case Nsec(text) => text == ""
  }

  /** The page's upload buttons get the same passphrase: with the local key,
      the save button looks enabled exactly when an upload from this page gets
      past the passphrase test and signs (for image files). */
  lemma EnabledButtonMatchesUploadPassphraseTest(
    files: seq<FileUploader.File>, passphrase: string, env: FileUploader.Env)
    requires FileUploader.AllImages(files)
    ensures var r := FileUploader.UploadTrace(files, "nsec", passphrase, env);
            !IsButtonDisabled("nsec", passphrase, env.nsecOf) <==> r != [] && r[0] == FileUploader.SignLocally
  {
  }

  /** The save button's keydown handler submits on the Enter key only when the
      button is not styled disabled. */
  function SubmitsOnEnter(key: string, buttonDisabled: bool): (r: bool)
    ensures r ==> key == "Enter"
    ensures key == "Enter" ==> (r <==> !buttonDisabled)
  {
    key == "Enter" && !buttonDisabled
  }

  /** The save button's own `isDisabled` comes from the upload flag alone. */
  function SaveButtonDisabled(isUploadingProfile: bool): (r: bool)
    ensures r <==> isUploadingProfile
  {
    isUploadingProfile
  }


  /** The profile map shared through the profile context, and the updates
      made to it. The provider's `updateProfileData` is taken to store the
      given event under its key, replacing any earlier one. */
  class ProfileMapContext {
    var profileData: map<string, ProfileEvent>
    var updates: seq<ProfileEvent>

    constructor (profileData: map<string, ProfileEvent>)
      ensures this.profileData == profileData && updates == []
    {
      this.profileData := profileData;
      updates := [];
    }

    method UpdateProfileData(p: ProfileEvent)
      modifies this
      ensures profileData == old(profileData)[p.pubkey := p]
      ensures updates == old(updates) + [p]
    {
      profileData := profileData[p.pubkey := p];
      updates := updates + [p];
    }
  }

  /** The page's state flags, the form's values and the passphrase. */
  class UserProfilePage {
    const signInMethod: string
    const context: ProfileMapContext
    var userPubkey: string
    var passphrase: string
    var enterPassphrase: bool
    var isFetchingProfile: bool
    var isUploadingProfile: bool
    var userNSec: string
    var form: map<string, string>
    var published: seq<PublishRequest>

    constructor (signInMethod: string, context: ProfileMapContext)
      ensures this.signInMethod == signInMethod && this.context == context
      ensures userPubkey == "" && passphrase == "" && userNSec == ""
      ensures !enterPassphrase && !isFetchingProfile && !isUploadingProfile
      ensures form == (map f | f in FormFields :: "") && published == []
    {
      this.signInMethod := signInMethod;
      this.context := context;
      userPubkey := "";
      passphrase := "";
      enterPassphrase := false;
      isFetchingProfile := false;
      isUploadingProfile := false;
      userNSec := "";
      form := map f | f in FormFields :: "";
      published := [];
    }

    /** The mount effect: the key stored for the signed-in user. */
    method SetUserPubkey(storedPubkey: string)
      modifies this
      ensures userPubkey == storedPubkey
      ensures passphrase == old(passphrase) && form == old(form) && userNSec == old(userNSec)
      ensures enterPassphrase == old(enterPassphrase) && isFetchingProfile == old(isFetchingProfile)
      ensures isUploadingProfile == old(isUploadingProfile) && published == old(published)
    {
      userPubkey := storedPubkey;
    }

    /** The passphrase prompt's `setCorrectPassphrase`. */
    method SetPassphrase(p: string)
      modifies this
      ensures passphrase == p
      ensures userPubkey == old(userPubkey) && form == old(form) && userNSec == old(userNSec)
      ensures enterPassphrase == old(enterPassphrase) && isFetchingProfile == old(isFetchingProfile)
      ensures isUploadingProfile == old(isUploadingProfile) && published == old(published)
    {
      passphrase := p;
    }

    /** The profile-load effect. With the local key and a passphrase that
        `validPassphrase` rejects, it only opens the prompt. Otherwise it resets
        the form to the stored profile when the map has the user's key, ends with
        `isFetchingProfile` false, and keeps a truthy derivation of a non-empty
        passphrase as the shown secret key; an exception from that derivation
        escapes the effect (`threw`) after the loading flag is cleared. */
    method LoadProfileEffect(validPassphrase: string -> bool, nsecOf: string -> Derivation)
      returns (threw: bool)
      modifies this
      ensures userPubkey == old(userPubkey) && passphrase == old(passphrase)
      ensures isUploadingProfile == old(isUploadingProfile) && published == old(published)
      ensures signInMethod == "nsec" && !validPassphrase(passphrase) ==>
                && enterPassphrase && !threw
                && form == old(form) && isFetchingProfile == old(isFetchingProfile)
                && userNSec == old(userNSec)
      ensures !(signInMethod == "nsec" && !validPassphrase(passphrase)) ==>
                && enterPassphrase == old(enterPassphrase)
                && !isFetchingProfile
                && form == (if userPubkey in context.profileData then context.profileData[userPubkey].content else old(form))
                && (threw <==> passphrase != "" && nsecOf(passphrase).DerivationThrew?)
                && userNSec == (if passphrase != "" && Truthy(nsecOf(passphrase)) then nsecOf(passphrase).text else old(userNSec))
    {
      threw := false;
      if signInMethod == "nsec" && !validPassphrase(passphrase) {
        enterPassphrase := true;
        return;
      }
      isFetchingProfile := true;
      if userPubkey in context.profileData {
        form := context.profileData[userPubkey].content;
      }
      isFetchingProfile := false;
      if passphrase != "" {
        var nsec := nsecOf(passphrase);
        if nsec.DerivationThrew? {
          threw := true;
          return;
        }
        if Truthy(nsec) {
          userNSec := nsec.text;
        }
      }
    }

    /** `onSubmit`: raise the upload flag, publish, record the submitted data
        under the user's key with `created_at` 0, lower the flag. When the
        publish call rejects, the rejection escapes: the flag stays raised and
        the map is not updated. */
    method OnSubmit(data: map<string, string>, publishSucceeds: bool)
      modifies this, context
      ensures published == old(published) + [PublishRequest(userPubkey, data, passphrase)]
      ensures userPubkey == old(userPubkey) && passphrase == old(passphrase) && form == old(form)
      ensures enterPassphrase == old(enterPassphrase) && isFetchingProfile == old(isFetchingProfile)
      ensures userNSec == old(userNSec)
      ensures publishSucceeds ==>
                && !isUploadingProfile
                && context.updates == old(context.updates) + [ProfileEvent(userPubkey, data, 0)]
                && context.profileData == old(context.profileData)[userPubkey := ProfileEvent(userPubkey, data, 0)]
      ensures !publishSucceeds ==>
                isUploadingProfile && context.updates == old(context.updates) && context.profileData == old(context.profileData)
    {
      isUploadingProfile := true;
      published := published + [PublishRequest(userPubkey, data, passphrase)];
      if !publishSucceeds {
        return;
      }
      context.UpdateProfileData(ProfileEvent(userPubkey, data, 0));
      isUploadingProfile := false;
    }

    /** The keydown handler of the save button: the Enter key makes it submit
        unless the button is styled disabled, and it suppresses the key's
        default action exactly when it submits itself. */
    method KeyDownSubmits(key: string, nsecOf: string -> Derivation) returns (submits: bool, preventsDefault: bool)
      ensures submits <==> key == "Enter" && !IsButtonDisabled(signInMethod, passphrase, nsecOf)
      ensures preventsDefault <==> submits
    {
      submits := SubmitsOnEnter(key, IsButtonDisabled(signInMethod, passphrase, nsecOf));
      preventsDefault := submits;
    }

    /** A click on the save button submits the form unless an upload is under
        way, whatever the disabled styling says. */
    method ClickSubmits() returns (submits: bool)
      ensures submits <==> !isUploadingProfile
    {
      submits := !SaveButtonDisabled(isUploadingProfile);
    }
  }

  /** A saved profile is what the form shows next: after a successful submit,
      the profile-load effect resets the form to the submitted data. */
  method SubmitThenReloadShowsSubmitted(profileData: map<string, ProfileEvent>, pubkey: string, data: map<string, string>,
                                        validPassphrase: string -> bool, nsecOf: string -> Derivation)
    returns (form: map<string, string>)
    ensures form == data
  {
    var context := new ProfileMapContext(profileData);
    var page := new UserProfilePage("extension", context);
    page.SetUserPubkey(pubkey);
    page.OnSubmit(data, true);
    var _ := page.LoadProfileEffect(validPassphrase, nsecOf);
    form := page.form;
  }

  /** The styled-disabled button still submits on a click: on a page with the
      local key, no passphrase and no upload under way, the keydown handler
      neither submits nor suppresses the Enter key's default action, and a
      click submits. */
  method ClickSubmitsWhileStyledDisabled(context: ProfileMapContext, nsecOf: string -> Derivation)
    returns (enterSubmits: bool, enterPreventsDefault: bool, clickSubmits: bool)
    ensures !enterSubmits && !enterPreventsDefault && clickSubmits
  {
    var page := new UserProfilePage("nsec", context);
    enterSubmits, enterPreventsDefault := page.KeyDownSubmits("Enter", nsecOf);
    clickSubmits := page.ClickSubmits();
  }
}
