/** The seller's shop-profile editor: fields seeded from the stored profile,
    the leading-zero check on the WhatsApp number, and the choice of image
    addresses for the saved profile. */
module ProfileForm {
  import opened Common

  const ErrLeadingZero: string := "Please enter your WhatsApp number without the leading zero."

  /** The stored profile the form starts from; any field may be missing. */
  datatype ProfileData = ProfileData(storeName: Option<string>, description: Option<string>,
                                     whatsapp: Option<string>, location: Option<string>,
                                     profileImage: Option<string>, bannerImage: Option<string>)

  /** The object handed to `onSave`. */
  datatype SavedProfile = SavedProfile(storeName: string, description: string, whatsapp: string, location: string,
                                       profileImage: string, bannerImage: string, userId: Option<string>)

  datatype Field = StoreName | Description | Whatsapp | Location | ProfileImage | BannerImage

  /** `initialData?.<field> || ''`. */
  function Initial(d: Option<ProfileData>, f: Field): (s: string)
    ensures d.None? ==> s == ""
  {
    if d.None? then ""
    else
      var v := d.value;
      OrEmpty(match f
              case StoreName => v.storeName
              case Description => v.description
              case Whatsapp => v.whatsapp
              case Location => v.location
              case ProfileImage => v.profileImage
              case BannerImage => v.bannerImage)
  }

  /** With stored data, each field is seeded with its stored value, and a
      missing one with `''`. */
  lemma InitialSeedsFields(v: ProfileData)
    ensures Initial(Some(v), StoreName) == OrEmpty(v.storeName)
    ensures Initial(Some(v), Description) == OrEmpty(v.description)
    ensures Initial(Some(v), Whatsapp) == OrEmpty(v.whatsapp)
    ensures Initial(Some(v), Location) == OrEmpty(v.location)
    ensures Initial(Some(v), ProfileImage) == OrEmpty(v.profileImage)
    ensures Initial(Some(v), BannerImage) == OrEmpty(v.bannerImage)
  {
  }

  /** The submit's result: stopped by the number check, stopped by a failed
      upload, or finished (with the saved profile when a save handler exists). */
  datatype Outcome = LeadingZero | UploadFailed | Finished(saved: Option<SavedProfile>)

  /** The image address a submit uses: the new upload when a file was chosen
      (failing when the upload yields no address), otherwise the stored one. */
  function ChosenImage(stored: string, fileChosen: bool, upload: Option<string>): Option<string>
  {
    if !fileChosen then Some(stored) else if Truthy(upload) then Some(upload.value) else None
  }

  /** `handleSubmit` as a function of the form's values and the upload results;
      `profileUpload` and `bannerUpload` stand for what the image host returns. */
  function Submit(storeName: string, description: string, whatsapp: string, location: string,
                  initialData: Option<ProfileData>, userId: Option<string>,
                  profileFile: bool, profileUpload: Option<string>,
                  bannerFile: bool, bannerUpload: Option<string>, hasOnSave: bool): Outcome
  {
    if StartsWithZero(whatsapp) then LeadingZero
    else
      var profileUrl := ChosenImage(Initial(initialData, ProfileImage), profileFile, profileUpload);
      var bannerUrl := ChosenImage(Initial(initialData, BannerImage), bannerFile, bannerUpload);
      if profileUrl.None? || bannerUrl.None? then UploadFailed
      else if !hasOnSave then Finished(None)
      else Finished(Some(SavedProfile(storeName, description, whatsapp, location, profileUrl.value, bannerUrl.value,
                                      userId)))
  }

  /** A number with a leading zero stops the submit before anything is uploaded or saved. */
  lemma LeadingZeroStops(storeName: string, description: string, whatsapp: string, location: string,
                         initialData: Option<ProfileData>, userId: Option<string>,
                         profileFile: bool, profileUpload: Option<string>,
                         bannerFile: bool, bannerUpload: Option<string>, hasOnSave: bool)
    requires StartsWithZero(whatsapp)
    ensures Submit(storeName, description, whatsapp, location, initialData, userId, profileFile, profileUpload,
                   bannerFile, bannerUpload, hasOnSave) == LeadingZero
  {
  }

  /** A profile is saved exactly when the number passes, every chosen file
      uploads, and a save handler exists; it carries the form's text fields
      unchanged, the user id, and for each image the new upload or, with no new
      file, the stored address (or '' when there is none). */
  lemma SubmitSaves(storeName: string, description: string, whatsapp: string, location: string,
                    initialData: Option<ProfileData>, userId: Option<string>,
                    profileFile: bool, profileUpload: Option<string>,
                    bannerFile: bool, bannerUpload: Option<string>, hasOnSave: bool)
    ensures var o := Submit(storeName, description, whatsapp, location, initialData, userId, profileFile,
                            profileUpload, bannerFile, bannerUpload, hasOnSave);
            && (o.Finished? && o.saved.Some? <==>
                  !StartsWithZero(whatsapp) && (profileFile ==> Truthy(profileUpload))
                  && (bannerFile ==> Truthy(bannerUpload)) && hasOnSave)
            && (o.Finished? && o.saved.Some? ==>
                  var s := o.saved.value;
                  && s.storeName == storeName && s.description == description && s.whatsapp == whatsapp
                  && s.location == location && s.userId == userId
                  && s.profileImage == (if profileFile then profileUpload.value else Initial(initialData, ProfileImage))
                  && s.bannerImage == (if bannerFile then bannerUpload.value else Initial(initialData, BannerImage)))
  {
  }

  /** A chosen file whose upload yields no address stops the submit without a save. */
  lemma FailedUploadStops(storeName: string, description: string, whatsapp: string, location: string,
                          initialData: Option<ProfileData>, userId: Option<string>,
                          profileFile: bool, profileUpload: Option<string>,
                          bannerFile: bool, bannerUpload: Option<string>, hasOnSave: bool)
    requires !StartsWithZero(whatsapp)
    requires (profileFile && !Truthy(profileUpload)) || (bannerFile && !Truthy(bannerUpload))
    ensures Submit(storeName, description, whatsapp, location, initialData, userId, profileFile, profileUpload,
                   bannerFile, bannerUpload, hasOnSave) == UploadFailed
  {
  }

  /** The editor's state. */
  class Editor {
    var storeName: string
    var description: string
    var whatsapp: string
    var location: string
    var profileFile: bool
    var profilePreviewUrl: string
    var bannerFile: bool
    var bannerPreviewUrl: string
    var userId: Option<string>
    var loading: bool
    var whatsappError: string
    const initialData: Option<ProfileData>

    /** The initial state: each text field and preview from the stored profile, or ''. */
    constructor (initialData: Option<ProfileData>)
      ensures this.initialData == initialData
      ensures storeName == Initial(initialData, StoreName) && description == Initial(initialData, Description)
      ensures whatsapp == Initial(initialData, Whatsapp) && location == Initial(initialData, Location)
      ensures profilePreviewUrl == Initial(initialData, ProfileImage)
      ensures bannerPreviewUrl == Initial(initialData, BannerImage)
      ensures !profileFile && !bannerFile && userId.None? && !loading && whatsappError == ""
    {
      this.initialData := initialData;
      storeName := Initial(initialData, StoreName);
      description := Initial(initialData, Description);
      whatsapp := Initial(initialData, Whatsapp);
      location := Initial(initialData, Location);
      profileFile, bannerFile := false, false;
      profilePreviewUrl := Initial(initialData, ProfileImage);
      bannerPreviewUrl := Initial(initialData, BannerImage);
      userId, loading, whatsappError := None, false, "";
    }

    /** The effect on `initialData`: with a stored profile, reload every field
        from it and drop chosen files; without one, change nothing. */
    method LoadInitialData()
      modifies this
      ensures initialData.Some? ==>
                && storeName == Initial(initialData, StoreName) && description == Initial(initialData, Description)
                && whatsapp == Initial(initialData, Whatsapp) && location == Initial(initialData, Location)
                && profilePreviewUrl == Initial(initialData, ProfileImage)
                && bannerPreviewUrl == Initial(initialData, BannerImage)
                && !profileFile && !bannerFile
      ensures initialData.None? ==>
                && storeName == old(storeName) && description == old(description) && whatsapp == old(whatsapp)
                && location == old(location) && profilePreviewUrl == old(profilePreviewUrl)
                && bannerPreviewUrl == old(bannerPreviewUrl)
                && profileFile == old(profileFile) && bannerFile == old(bannerFile)
      ensures userId == old(userId) && loading == old(loading) && whatsappError == old(whatsappError)
    {
      if initialData.Some? {
        storeName := Initial(initialData, StoreName);
        description := Initial(initialData, Description);
        whatsapp := Initial(initialData, Whatsapp);
        location := Initial(initialData, Location);
        profilePreviewUrl := Initial(initialData, ProfileImage);
        bannerPreviewUrl := Initial(initialData, BannerImage);
        profileFile, bannerFile := false, false;
      }
    }

    /** `handleSubmit`, with the image host's answers as parameters and
        `hasOnSave` for the presence of the save handler. */
    method HandleSubmit(profileUpload: Option<string>, bannerUpload: Option<string>, hasOnSave: bool)
      returns (outcome: Outcome)
      modifies this
      ensures outcome == Submit(storeName, description, whatsapp, location, initialData, userId,
                                profileFile, profileUpload, bannerFile, bannerUpload, hasOnSave)
      ensures whatsappError == (if outcome == LeadingZero then ErrLeadingZero else "")
      ensures !loading
      ensures storeName == old(storeName) && description == old(description) && whatsapp == old(whatsapp)
      ensures location == old(location) && userId == old(userId)
      ensures profileFile == old(profileFile) && bannerFile == old(bannerFile)
      ensures profilePreviewUrl == old(profilePreviewUrl) && bannerPreviewUrl == old(bannerPreviewUrl)
    {
      loading := true;
      whatsappError := "";
      if StartsWithZero(whatsapp) {
        whatsappError := ErrLeadingZero;
        loading := false;
        return LeadingZero;
      }
      var profileImageUrl := Initial(initialData, ProfileImage);
      if profileFile {
        if !Truthy(profileUpload) {
          loading := false;
          return UploadFailed;
        }
        profileImageUrl := profileUpload.value;
      }
      var bannerImageUrl := Initial(initialData, BannerImage);
      if bannerFile {
        if !Truthy(bannerUpload) {
          loading := false;
          return UploadFailed;
        }
        bannerImageUrl := bannerUpload.value;
      }
      if hasOnSave {
        outcome := Finished(Some(SavedProfile(storeName, description, whatsapp, location, profileImageUrl,
                                              bannerImageUrl, userId)));
      } else {
        outcome := Finished(None);
      }
      loading := false;
    }
  }
}
