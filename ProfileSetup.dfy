/**
 * The profile-setup dialog: the username input is normalised as it is typed,
 * and submitting checks the fields, checks that the username is not reserved,
 * then writes the profile and the reservation.
 */
module ProfileSetup {
  import opened Store
  import opened Text

  const AllFieldsRequired := "All fields are required"
  const BadUsername := "Username can only contain lowercase letters, numbers, and underscores"
  const UsernameTaken := "Username is already taken"
  const SetupFailed := "Failed to create profile"

  /**
   * `s.replace(/\s+/g, '_')`: every maximal run of whitespace becomes one
   * underscore. The result holds no whitespace, is never longer than `s`, is
   * empty only when `s` is, and every character in it is an underscore or a
   * character of `s`.
   */
  function ReplaceSpaceRuns(s: string): (r: string)
    ensures forall i :: 0 <= i < |r| ==> !IsSpace(r[i])
    ensures forall i :: 0 <= i < |r| ==> r[i] == '_' || r[i] in s
    ensures |r| <= |s|
    ensures r == [] <==> s == []
    decreases |s|
  {
    if s == [] then []
    else if IsSpace(s[0]) then "_" + ReplaceSpaceRuns(s[LeadingSpaces(s)..])
    else [s[0]] + ReplaceSpaceRuns(s[1..])
  }

  /**
   * The username input's normalisation: lower-case, then whitespace runs to
   * underscores. The result holds neither whitespace nor upper-case letters.
   */
  function NormalizeUsername(s: string): (r: string)
    ensures forall i :: 0 <= i < |r| ==> !IsSpace(r[i]) && !IsUpperAscii(r[i])
    ensures r == [] <==> s == []
  {
    var r := ReplaceSpaceRuns(Lower(s));
    assert forall i :: 0 <= i < |r| ==> !IsUpperAscii(r[i]) by {
      forall i | 0 <= i < |r| ensures !IsUpperAscii(r[i]) {
        if r[i] != '_' {
          var k :| 0 <= k < |Lower(s)| && Lower(s)[k] == r[i];
        }
      }
    }
    r
  }

  /** A string without whitespace is left as it is by the run replacement. */
  lemma {:induction false} ReplaceKeepsSpaceless(s: string)
    requires forall i :: 0 <= i < |s| ==> !IsSpace(s[i])
    ensures ReplaceSpaceRuns(s) == s
  {
    if s != [] {
      ReplaceKeepsSpaceless(s[1..]);
    }
  }

  /** Normalising a normalised username changes nothing. */
  lemma NormalizeIdempotent(s: string)
    ensures NormalizeUsername(NormalizeUsername(s)) == NormalizeUsername(s)
  {
    var n := NormalizeUsername(s);
    LowerKeepsLower(n);
    ReplaceKeepsSpaceless(n);
  }

  /** The leading run of a whitespace block followed by a non-whitespace start is the whole block. */
  lemma {:induction false} LeadingSpacesOfBlock(w: string, b: string)
    requires forall i :: 0 <= i < |w| ==> IsSpace(w[i])
    requires b != [] ==> !IsSpace(b[0])
    ensures LeadingSpaces(w + b) == |w|
  {
    if w != [] {
      assert (w + b)[1..] == w[1..] + b;
      LeadingSpacesOfBlock(w[1..], b);
    }
  }

  /** A string starting with a non-whitespace character keeps its leading run under any extension. */
  lemma {:induction false} LeadingSpacesOfPrefix(a: string, t: string)
    requires a != [] && !IsSpace(a[|a| - 1])
    ensures LeadingSpaces(a + t) == LeadingSpaces(a) < |a|
  {
    if IsSpace(a[0]) {
      assert |a| > 1;
      assert (a + t)[1..] == a[1..] + t;
      LeadingSpacesOfPrefix(a[1..], t);
    }
  }

  /**
   * The run replacement works run by run: a non-empty whitespace block between
   * a part that does not end in whitespace and a part that does not start with
   * it turns into exactly one underscore, and the parts are replaced on their own.
   */
  lemma {:induction false} ReplaceSplitsAtRun(a: string, w: string, b: string)
    requires a != [] ==> !IsSpace(a[|a| - 1])
    requires w != [] && forall i :: 0 <= i < |w| ==> IsSpace(w[i])
    requires b != [] ==> !IsSpace(b[0])
    ensures ReplaceSpaceRuns(a + w + b) == ReplaceSpaceRuns(a) + "_" + ReplaceSpaceRuns(b)
    decreases |a|
  {
    if a == [] {
      assert a + w + b == w + b;
      ReplaceAtBlock(w, b);
    } else if IsSpace(a[0]) {
      LeadingSpacesOfPrefix(a, w + b);
      ReplaceSplitsAtRun(a[LeadingSpaces(a)..], w, b);
      SplitStepSpace(a, w, b);
    } else {
      ReplaceSplitsAtRun(a[1..], w, b);
      SplitStepOther(a, w, b);
    }
  }

  /** The inductive step of ReplaceSplitsAtRun when `a` starts with whitespace. */
  lemma SplitStepSpace(a: string, w: string, b: string)
    requires a != [] && IsSpace(a[0]) && !IsSpace(a[|a| - 1])
    requires ReplaceSpaceRuns(a[LeadingSpaces(a)..] + w + b)
      == ReplaceSpaceRuns(a[LeadingSpaces(a)..]) + "_" + ReplaceSpaceRuns(b)
    ensures ReplaceSpaceRuns(a + w + b) == ReplaceSpaceRuns(a) + "_" + ReplaceSpaceRuns(b)
  {
    UnfoldAtLeadingRun(a, w, b);
    ConcatRegroup("_", ReplaceSpaceRuns(a[LeadingSpaces(a)..]), ReplaceSpaceRuns(b));
  }

  /** The inductive step of ReplaceSplitsAtRun when `a` starts with another character. */
  lemma SplitStepOther(a: string, w: string, b: string)
    requires a != [] && !IsSpace(a[0])
    requires ReplaceSpaceRuns(a[1..] + w + b) == ReplaceSpaceRuns(a[1..]) + "_" + ReplaceSpaceRuns(b)
    ensures ReplaceSpaceRuns(a + w + b) == ReplaceSpaceRuns(a) + "_" + ReplaceSpaceRuns(b)
  {
    UnfoldAtFirst(a, w, b);
    ConcatRegroup([a[0]], ReplaceSpaceRuns(a[1..]), ReplaceSpaceRuns(b));
  }

  /** ReplaceAfterLeadingRun for `a` followed by `w + b`, with the concatenation regrouped. */
  lemma UnfoldAtLeadingRun(a: string, w: string, b: string)
    requires a != [] && IsSpace(a[0]) && !IsSpace(a[|a| - 1])
    ensures ReplaceSpaceRuns(a + w + b) == "_" + ReplaceSpaceRuns(a[LeadingSpaces(a)..] + w + b)
    ensures ReplaceSpaceRuns(a) == "_" + ReplaceSpaceRuns(a[LeadingSpaces(a)..])
  {
    var a' := a[LeadingSpaces(a)..];
    assert a + w + b == a + (w + b) && a' + w + b == a' + (w + b);
    ReplaceAfterLeadingRun(a, w + b);
  }

  /** ReplaceAfterFirst for `a` followed by `w + b`, with the concatenation regrouped. */
  lemma UnfoldAtFirst(a: string, w: string, b: string)
    requires a != [] && !IsSpace(a[0])
    ensures ReplaceSpaceRuns(a + w + b) == [a[0]] + ReplaceSpaceRuns(a[1..] + w + b)
    ensures ReplaceSpaceRuns(a) == [a[0]] + ReplaceSpaceRuns(a[1..])
  {
    var a' := a[1..];
    assert a + w + b == a + (w + b) && a' + w + b == a' + (w + b);
    ReplaceAfterFirst(a, w + b);
  }

  /** Regrouping a concatenation around the underscore. */
  lemma ConcatRegroup(p: string, x: string, y: string)
    ensures p + (x + "_" + y) == (p + x) + "_" + y
  {
  }

  /** A whitespace block at the start becomes one underscore. */
  lemma ReplaceAtBlock(w: string, b: string)
    requires w != [] && forall i :: 0 <= i < |w| ==> IsSpace(w[i])
    requires b != [] ==> !IsSpace(b[0])
    ensures ReplaceSpaceRuns(w + b) == "_" + ReplaceSpaceRuns(b)
  {
    LeadingSpacesOfBlock(w, b);
    assert (w + b)[|w|..] == b;
  }

  /** Unfolds the replacement once at a leading whitespace run of `a`. */
  lemma ReplaceAfterLeadingRun(a: string, t: string)
    requires a != [] && IsSpace(a[0]) && !IsSpace(a[|a| - 1])
    ensures ReplaceSpaceRuns(a + t) == "_" + ReplaceSpaceRuns(a[LeadingSpaces(a)..] + t)
    ensures ReplaceSpaceRuns(a) == "_" + ReplaceSpaceRuns(a[LeadingSpaces(a)..])
  {
    LeadingSpacesOfPrefix(a, t);
    var n := LeadingSpaces(a);
    assert (a + t)[n..] == a[n..] + t;
  }

  /** Unfolds the replacement once at a leading non-whitespace character. */
  lemma ReplaceAfterFirst(a: string, t: string)
    requires a != [] && !IsSpace(a[0])
    ensures ReplaceSpaceRuns(a + t) == [a[0]] + ReplaceSpaceRuns(a[1..] + t)
  {
    assert (a + t)[1..] == a[1..] + t;
  }

  predicate IsUsernameChar(c: char) {
    IsLowerAscii(c) || IsDigit(c) || c == '_'
  }

  /** The submit check `/^[a-z0-9_]+$/`. */
  predicate MatchesUsernamePattern(s: string) {
    |s| > 0 && forall i :: 0 <= i < |s| ==> IsUsernameChar(s[i])
  }

  /** A character of `s` that is not whitespace survives the run replacement. */
  lemma {:induction false} ReplaceKeepsNonSpace(s: string, k: nat)
    requires k < |s| && !IsSpace(s[k])
    ensures s[k] in ReplaceSpaceRuns(s)
    decreases |s|
  {
    if IsSpace(s[0]) {
      var n := LeadingSpaces(s);
      assert k >= n;
      ReplaceKeepsNonSpace(s[n..], k - n);
    } else if k > 0 {
      ReplaceKeepsNonSpace(s[1..], k - 1);
    }
  }

  /**
   * A typed username passes the submit pattern exactly when it is non-empty and
   * made of ASCII letters of either case, digits, underscores and whitespace.
   */
  lemma NormalizedMatchesPattern(s: string)
    ensures MatchesUsernamePattern(NormalizeUsername(s)) <==>
      |s| > 0 && forall i :: 0 <= i < |s| ==> IsUpperAscii(s[i]) || IsUsernameChar(s[i]) || IsSpace(s[i])
  {
    var l := Lower(s);
    var r := NormalizeUsername(s);
    assert r == ReplaceSpaceRuns(l);
    if MatchesUsernamePattern(r) {
      forall i | 0 <= i < |s| ensures IsUpperAscii(s[i]) || IsUsernameChar(s[i]) || IsSpace(s[i]) {
        if !IsSpace(s[i]) && !IsUpperAscii(s[i]) {
          assert l[i] == s[i];
          ReplaceKeepsNonSpace(l, i);
          var j :| 0 <= j < |r| && r[j] == l[i];
        }
      }
    }
    if |s| > 0 && forall i :: 0 <= i < |s| ==> IsUpperAscii(s[i]) || IsUsernameChar(s[i]) || IsSpace(s[i]) {
      forall j | 0 <= j < |r| ensures IsUsernameChar(r[j]) {
        if r[j] != '_' {
          var k :| 0 <= k < |l| && l[k] == r[j];
        }
      }
    }
  }

  /** A non-empty input never normalises to a blank username (whitespace alone becomes "_"). */
  lemma NormalizedNotBlank(s: string)
    requires s != []
    ensures !IsBlank(NormalizeUsername(s))
  {
    assert !IsSpace(NormalizeUsername(s)[0]);
  }

  /**
   * The synchronous checks of the submit handler, in order: a field that is
   * blank after trimming, then a username outside the pattern. None means the
   * handler goes on to the database.
   */
  function Precheck(fullName: string, username: string): (r: Option<string>)
    ensures r == Some(AllFieldsRequired) <==> IsBlank(fullName) || IsBlank(username)
    ensures r == Some(BadUsername) <==>
      !IsBlank(fullName) && !IsBlank(username) && !MatchesUsernamePattern(username)
    ensures r == None <==> !IsBlank(fullName) && MatchesUsernamePattern(username)
  {
    if Trim(fullName) == [] || Trim(username) == [] then Some(AllFieldsRequired)
    else if !MatchesUsernamePattern(username) then Some(BadUsername)
    else None
  }

  /** The error shown after a failure: its own message, or the generic setup failure when that is empty. */
  function FailureMessage(message: string): (m: string)
    ensures m != []
    ensures message != [] ==> m == message
    ensures message == [] ==> m == SetupFailed
  {
    if message == [] then SetupFailed else message
  }

  /** The state of the setup dialog, with the signed-in user's uid and email. */
  class Form {
    const db: Database
    const uid: Uid
    const email: string
    var fullName: string
    var username: string
    var error: string
    var loading: bool
    /** The profile held by the user context (`setUserProfile`). */
    var userProfile: Option<UserDoc>

    constructor (db: Database, uid: Uid, email: string)
      ensures this.db == db && this.uid == uid && this.email == email
      ensures fullName == "" && username == "" && error == "" && !loading && userProfile == None
    {
      this.db, this.uid, this.email := db, uid, email;
      fullName, username, error, loading, userProfile := "", "", "", false, None;
    }

    /** The full-name input's change handler. */
    method SetFullName(value: string)
      modifies this`fullName
      ensures fullName == value
    {
      fullName := value;
    }

    /** `handleUsernameChange`: stores the normalised input. */
    method HandleUsernameChange(value: string)
      modifies this`username
      ensures username == NormalizeUsername(value)
    {
      username := NormalizeUsername(value);
    }

    /**
     * The submit handler. `read` is the outcome of reading the reservation,
     * `profileWrite` and `reserveWrite` those of the two writes. A failed
     * precheck only sets the error. A username already reserved, or a failed
     * read or profile write, writes nothing. A failed reservation write leaves
     * the profile written and the username unreserved. `loading` is false after
     * every outcome that reaches the database.
     */
    method HandleSubmit(read: Reply, profileWrite: Reply, reserveWrite: Reply)
      modifies this`error, this`loading, this`userProfile, db`users, db`usernames
      ensures Precheck(fullName, username).Some? ==>
        && error == Precheck(fullName, username).value
        && loading == old(loading) && userProfile == old(userProfile)
        && db.users == old(db.users) && db.usernames == old(db.usernames)
      ensures Precheck(fullName, username).None? ==> !loading
      ensures Precheck(fullName, username).None? && read.Rejected? ==>
        && error == FailureMessage(read.message) && userProfile == old(userProfile)
        && db.users == old(db.users) && db.usernames == old(db.usernames)
      ensures Precheck(fullName, username).None? && read.Done? && username in old(db.usernames) ==>
        && error == UsernameTaken && userProfile == old(userProfile)
        && db.users == old(db.users) && db.usernames == old(db.usernames)
      ensures (Precheck(fullName, username).None? && read.Done? && username !in old(db.usernames)
               && profileWrite.Rejected?) ==>
        && error == FailureMessage(profileWrite.message) && userProfile == old(userProfile)
        && db.users == old(db.users) && db.usernames == old(db.usernames)
      ensures (Precheck(fullName, username).None? && read.Done? && username !in old(db.usernames)
               && profileWrite.Done? && reserveWrite.Rejected?) ==>
        && error == FailureMessage(reserveWrite.message) && userProfile == old(userProfile)
        && db.users == old(db.users)[uid := UserDoc(fullName, username, email)]
        && db.usernames == old(db.usernames)
      ensures (Precheck(fullName, username).None? && read.Done? && username !in old(db.usernames)
               && profileWrite.Done? && reserveWrite.Done?) ==>
        && error == "" && userProfile == Some(UserDoc(fullName, username, email))
        && db.users == old(db.users)[uid := UserDoc(fullName, username, email)]
        && db.usernames == old(db.usernames)[username := uid]
    {
      var refusal := Precheck(fullName, username);
      if refusal.Some? {
        error := refusal.value;
        return;
      }
      Save(read, profileWrite, reserveWrite);
    }

    /**
     * The part of the submit handler after the precheck: the reservation read
     * and the two writes, with `loading` set around them.
     */
    method Save(read: Reply, profileWrite: Reply, reserveWrite: Reply)
      modifies this`error, this`loading, this`userProfile, db`users, db`usernames
      ensures !loading
      ensures read.Rejected? ==>
        && error == FailureMessage(read.message) && userProfile == old(userProfile)
        && db.users == old(db.users) && db.usernames == old(db.usernames)
      ensures read.Done? && username in old(db.usernames) ==>
        && error == UsernameTaken && userProfile == old(userProfile)
        && db.users == old(db.users) && db.usernames == old(db.usernames)
      ensures read.Done? && username !in old(db.usernames) && profileWrite.Rejected? ==>
        && error == FailureMessage(profileWrite.message) && userProfile == old(userProfile)
        && db.users == old(db.users) && db.usernames == old(db.usernames)
      ensures read.Done? && username !in old(db.usernames) && profileWrite.Done? && reserveWrite.Rejected? ==>
        && error == FailureMessage(reserveWrite.message) && userProfile == old(userProfile)
        && db.users == old(db.users)[uid := UserDoc(fullName, username, email)]
        && db.usernames == old(db.usernames)
      ensures read.Done? && username !in old(db.usernames) && profileWrite.Done? && reserveWrite.Done? ==>
        && error == "" && userProfile == Some(UserDoc(fullName, username, email))
        && db.users == old(db.users)[uid := UserDoc(fullName, username, email)]
        && db.usernames == old(db.usernames)[username := uid]
    {
      error := "";
      loading := true;
      if read.Rejected? {
        error := FailureMessage(read.message);
      } else if username in db.usernames {
        error := FailureMessage(UsernameTaken);
      } else {
        var userData := UserDoc(fullName, username, email);
        if profileWrite.Rejected? {
          error := FailureMessage(profileWrite.message);
        } else {
          db.users := db.users[uid := userData];
          if reserveWrite.Rejected? {
            error := FailureMessage(reserveWrite.message);
          } else {
            db.usernames := db.usernames[username := uid];
            userProfile := Some(userData);
          }
        }
      }
      loading := false;
    }
  }
}
