/**
 * frontend/src/pages/ProfilePage.jsx: the name-editing state machine, the
 * picture upload, and the fallbacks the page uses when showing the user. The
 * auth store (`user`, its flags and `updateProfile`) is outside the model: the
 * user record is a parameter and `updateProfile` is a success flag.
 */
module ProfilePage {
  import opened Common
  import opened Text
  import opened Web

  const SAVE_ERROR := "Failed to update profile"
  const UPLOAD_ALERT := "Image upload failed"
  const DEFAULT_AVATAR := "/avatar.png"

  /** The fields of the store's `user` the page reads. */
  datatype User = User(
    name: Option<string>,
    profilePic: Option<string>,
    wallet: Option<int>,
    coupons: Option<seq<string>>,
    sakhiPoints: Option<int>,
    createdAt: Option<string>)

  /** `user?.name || ""` */
  function NameOrEmpty(user: Option<User>): (name: string)
    ensures user.Some? && Truthy(user.value.name) ==> name == user.value.name.value
    ensures !(user.Some? && Truthy(user.value.name)) ==> name == ""
  {
    if user.Some? then OrElse(user.value.name, "") else ""
  }

  /**
   * The "Loading profile..." view replaces the page (ProfilePage.jsx, line 86):
   * while signed out or loading it always shows, and the full page is only
   * drawn with a user record present.
   */
  function ShowsLoading(isAuthenticated: bool, isLoading: bool, user: Option<User>): (loading: bool)
    ensures !isAuthenticated || isLoading ==> loading
    ensures !loading ==> isAuthenticated && user.Some?
    ensures isAuthenticated && !isLoading && user.Some? ==> !loading
  {
    !isAuthenticated || isLoading || user.None?
  }

  /** `user?.profilePic || selectedImg || "/avatar.png"` */
  function AvatarSource(user: Option<User>, selectedImg: Option<string>): (src: string)
    ensures src != ""
    ensures user.Some? && Truthy(user.value.profilePic) ==> src == user.value.profilePic.value
    ensures !(user.Some? && Truthy(user.value.profilePic)) && Truthy(selectedImg) ==> src == selectedImg.value
    ensures !(user.Some? && Truthy(user.value.profilePic)) && !Truthy(selectedImg) ==> src == DEFAULT_AVATAR
  {
    var stored := if user.Some? then user.value.profilePic else None;
    OrElse(stored, OrElse(selectedImg, DEFAULT_AVATAR))
  }

  /** `x || 0` on a number that may be absent. */
  function OrZero(x: Option<int>): (n: int)
    ensures x.Some? ==> n == x.value
    ensures x.None? ==> n == 0
  {
    if x.Some? then x.value else 0
  }

  /** The three quick stats: wallet, number of coupons, points (lines 133-137). */
  function Stats(user: User): (s: (int, int, int))
    ensures s.0 == OrZero(user.wallet)
    ensures s.1 == (if user.coupons.Some? then |user.coupons.value| else 0)
    ensures s.2 == OrZero(user.sakhiPoints)
  {
    (OrZero(user.wallet), if user.coupons.Some? then |user.coupons.value| else 0, OrZero(user.sakhiPoints))
  }

  /** "Member Since": `user.createdAt?.split("T")[0]`, the date part of an ISO timestamp. */
  function MemberSince(createdAt: Option<string>): (r: Option<string>)
    ensures r.None? <==> createdAt.None?
    ensures r.Some? ==> StartsWith(createdAt.value, r.value) && 'T' !in r.value
    ensures r.Some? && |r.value| < |createdAt.value| ==> createdAt.value[|r.value|] == 'T'
  {
    if createdAt.None? then None
    else
      var date := BeforeFirst(createdAt.value, 'T');
      assert forall c :: c in date ==> c != 'T';
      Some(date)
  }

  /** A timestamp whose first "T" is at `k` shows as the text before it, e.g. "2024-05-01" for "2024-05-01T10:00:00Z". */
  lemma MemberSinceIsDatePart(s: string, k: int)
    requires 0 <= k < |s| && s[k] == 'T'
    requires forall i :: 0 <= i < k ==> s[i] != 'T'
    ensures MemberSince(Some(s)) == Some(s[..k])
  {
  }

  /** The page's own state; the user record lives in the auth store. */
  class Page {
    var selectedImg: Option<string>
    var isEditing: bool
    var editedName: string
    var editError: Option<string>
    /** The messages passed to `alert`, oldest first. */
    var alerts: seq<string>

    /** The first render: the name field starts from the user's name. */
    constructor(user: Option<User>)
      ensures selectedImg == None && !isEditing && editedName == NameOrEmpty(user)
      ensures editError == None && alerts == []
    {
      selectedImg := None;
      isEditing := false;
      editedName := NameOrEmpty(user);
      editError := None;
      alerts := [];
    }

    /** The name input's `onChange`. */
    method SetEditedName(s: string)
      modifies this
      ensures editedName == s
      ensures selectedImg == old(selectedImg) && isEditing == old(isEditing)
      ensures editError == old(editError) && alerts == old(alerts)
    {
      editedName := s;
    }

    /** `handleEditProfile`: start editing from the stored name. */
    method HandleEditProfile(user: Option<User>)
      modifies this
      ensures isEditing && editedName == NameOrEmpty(user)
      ensures selectedImg == old(selectedImg) && editError == old(editError) && alerts == old(alerts)
    {
      editedName := NameOrEmpty(user);
      isEditing := true;
    }

    /**
     * `handleSaveProfile` up to its `await`: the old error is cleared and
     * `updateProfile` is called with the edited name, returned as `sent`.
     * Editing mode stays on while the call is pending.
     */
    method BeginSaveProfile() returns (sent: string)
      modifies this
      ensures sent == editedName
      ensures editError == None
      ensures isEditing == old(isEditing) && editedName == old(editedName)
      ensures selectedImg == old(selectedImg) && alerts == old(alerts)
    {
      editError := None;
      sent := editedName;
    }

    /** `updateProfile` settled: success leaves editing mode, failure records the error and stays in it. */
    method SaveSettled(succeeded: bool)
      modifies this
      ensures succeeded ==> !isEditing && editError == old(editError)
      ensures !succeeded ==> isEditing == old(isEditing) && editError == Some(SAVE_ERROR)
      ensures editedName == old(editedName) && selectedImg == old(selectedImg) && alerts == old(alerts)
    {
      if succeeded {
        isEditing := false;
      } else {
        editError := Some(SAVE_ERROR);
      }
    }

    /** One whole click on "Save", `updateProfile` succeeding exactly when `succeeded`. */
    method HandleSaveProfile(succeeded: bool) returns (sent: string)
      modifies this
      ensures sent == old(editedName)
      ensures succeeded ==> !isEditing && editError == None
      ensures !succeeded ==> isEditing == old(isEditing) && editError == Some(SAVE_ERROR)
      ensures editedName == old(editedName) && selectedImg == old(selectedImg) && alerts == old(alerts)
    {
      sent := BeginSaveProfile();
      SaveSettled(succeeded);
    }

    /** `handleCancelEdit`: leave editing mode and drop the edit; an earlier save error stays shown. */
    method HandleCancelEdit(user: Option<User>)
      modifies this
      ensures !isEditing && editedName == NameOrEmpty(user)
      ensures editError == old(editError) && selectedImg == old(selectedImg) && alerts == old(alerts)
    {
      isEditing := false;
      editedName := NameOrEmpty(user);
    }

    /**
     * `handleImageUpload` up to its first `await`: with no file nothing
     * happens; otherwise the preview URL of the file is shown.
     */
    method HandleImageUpload(preview: Option<string>) returns (started: bool)
      modifies this
      ensures started <==> preview.Some?
      ensures started ==> selectedImg == preview
      ensures !started ==> selectedImg == old(selectedImg)
      ensures isEditing == old(isEditing) && editedName == old(editedName)
      ensures editError == old(editError) && alerts == old(alerts)
    {
      if preview.None? {
        return false;
      }
      selectedImg := preview;
      started := true;
    }

    /**
     * The base64 conversion and `updateProfile` settled: on success the preview
     * is dropped; on failure an alert shows and the preview stays.
     */
    method ImageUploadSettled(succeeded: bool)
      modifies this
      ensures succeeded ==> selectedImg == None && alerts == old(alerts)
      ensures !succeeded ==> selectedImg == old(selectedImg) && alerts == old(alerts) + [UPLOAD_ALERT]
      ensures isEditing == old(isEditing) && editedName == old(editedName) && editError == old(editError)
    {
      if succeeded {
        selectedImg := None;
      } else {
        alerts := alerts + [UPLOAD_ALERT];
      }
    }
  }
}
