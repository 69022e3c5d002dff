/**
 * The profile page: shows the signed-in user's profile and lets them change
 * their full name.
 */
module Profile {
  import opened Store
  import opened Text

  const NameEmpty := "Name cannot be empty"
  const UpdateFailed := "Failed to update profile"

  /**
   * The state of the profile page. `profile` is the profile held by the user
   * context, which is still `None` while that context is loading; the page
   * renders nothing until it is present, but its state exists from the start.
   */
  class Editor {
    const db: Database
    const uid: Uid
    var profile: Option<UserDoc>
    var editing: bool
    var fullName: string
    var error: string
    var loading: bool

    /**
     * Mounting the page: the input starts with the full name of the profile
     * held at that moment, or empty when there is none yet.
     */
    constructor (db: Database, uid: Uid, profile: Option<UserDoc>)
      ensures this.db == db && this.uid == uid && this.profile == profile
      ensures profile.Some? ==> fullName == profile.value.fullName
      ensures profile.None? ==> fullName == ""
      ensures !editing && error == "" && !loading
    {
      this.db, this.uid, this.profile := db, uid, profile;
      fullName := if profile.Some? then profile.value.fullName else "";
      editing, error, loading := false, "", false;
    }

    /**
     * The user context publishes a (new) profile. The input's state was only
     * initialised at mount, so it is left as it was.
     */
    method OnProfileChanged(p: Option<UserDoc>)
      modifies this`profile
      ensures profile == p && fullName == old(fullName) && editing == old(editing)
    {
      profile := p;
    }

    /**
     * The same event, with the input synchronised to the newly published
     * profile whenever the page is not in editing mode.
     */
    method OnProfileChangedSynced(p: Option<UserDoc>)
      modifies this`profile, this`fullName
      ensures profile == p && editing == old(editing)
      ensures !editing && p.Some? ==> fullName == p.value.fullName
      ensures editing || p.None? ==> fullName == old(fullName)
    {
      profile := p;
      if !editing && p.Some? {
        fullName := p.value.fullName;
      }
    }

    /** The "Edit Profile" button. */
    method StartEditing()
      modifies this`editing
      ensures editing
    {
      editing := true;
    }

    /** The name input's change handler. */
    method SetFullName(value: string)
      modifies this`fullName
      ensures fullName == value
    {
      fullName := value;
    }

    /**
     * The save handler. `write` is the outcome of updating the user document;
     * the update also fails when that document does not exist. A name that is
     * blank after trimming is refused before anything else happens. Otherwise
     * the trimmed name is what is stored and what the local profile gets, and
     * nothing else in either changes; a successful save leaves editing mode,
     * a failed one stays in it. `loading` ends false after every outcome that
     * reaches the database.
     */
    method HandleSubmit(write: Reply)
      requires profile.Some?
      modifies this`error, this`loading, this`editing, this`profile, db`users
      ensures IsBlank(fullName) ==>
        && error == NameEmpty && loading == old(loading) && editing == old(editing)
        && profile == old(profile) && db.users == old(db.users)
      ensures !IsBlank(fullName) ==> !loading
      ensures !IsBlank(fullName) && (write.Rejected? || uid !in old(db.users)) ==>
        && error == UpdateFailed && editing == old(editing)
        && profile == old(profile) && db.users == old(db.users)
      ensures !IsBlank(fullName) && write.Done? && uid in old(db.users) ==>
        && error == "" && !editing
        && profile == Some(old(profile.value).(fullName := Trim(fullName)))
        && profile.value.username == old(profile.value.username)
        && profile.value.email == old(profile.value.email)
        && db.users == old(db.users)[uid := old(db.users[uid]).(fullName := Trim(fullName))]
        && Trim(profile.value.fullName) == profile.value.fullName && profile.value.fullName != []
    {
      var name := Trim(fullName);
      if name == [] {
        error := NameEmpty;
        return;
      }
      error := "";
      loading := true;
      if write.Rejected? || uid !in db.users {
        error := UpdateFailed;
      } else {
        assert Trim(name) == name by {
          TrimIdempotent(fullName);
        }
        db.users := db.users[uid := db.users[uid].(fullName := name)];
        profile := Some(profile.value.(fullName := name));
        editing := false;
      }
      loading := false;
    }

    /** The cancel button: leaves editing mode and resets the input to the profile's name. */
    method Cancel()
      requires profile.Some?
      modifies this`editing, this`fullName
      ensures !editing && fullName == profile.value.fullName
    {
      editing := false;
      fullName := profile.value.fullName;
    }
  }

  /**
   * Opening /profile before the user context has loaded: the profile arrives
   * after mount, the user presses "Edit Profile" and saves without typing.
   * Although the stored full name is not blank, the input is still empty and
   * the save is refused.
   */
  method LateProfileSave(uid: Uid, p: UserDoc, write: Reply) returns (error: string, input: string)
    requires !IsBlank(p.fullName)
    ensures error == NameEmpty && input == ""
  {
    var db := new Database();
    db.users := map[uid := p];
    var page := new Editor(db, uid, None);
    page.OnProfileChanged(Some(p));
    page.StartEditing();
    page.HandleSubmit(write);
    error, input := page.error, page.fullName;
  }

  /**
   * The same sequence with the input synchronised when the profile arrives: the
   * save goes through and stores the trimmed full name.
   */
  method LateProfileSaveSynced(uid: Uid, p: UserDoc, write: Reply) returns (error: string, stored: string)
    requires !IsBlank(p.fullName) && write.Done?
    ensures error == "" && stored == Trim(p.fullName)
  {
    var db := new Database();
    db.users := map[uid := p];
    var page := new Editor(db, uid, None);
    page.OnProfileChangedSynced(Some(p));
    page.StartEditing();
    page.HandleSubmit(write);
    error := page.error;
    stored := db.users[uid].fullName;
  }
}
