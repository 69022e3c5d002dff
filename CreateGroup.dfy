/**
 * The create-chat screen: checks the password length, generates a five-digit
 * code and adds a group whose only member is its creator.
 */
module CreateGroup {
  import opened Store
  import Text

  const MinPasswordLength := 6
  const PasswordTooShort := "Password must be at least 6 characters"
  const CreateFailedPrefix := "Failed to create chat: "

  function DigitChar(d: nat): (c: char)
    requires d < 10
    ensures Text.IsDigit(c) && c as int - '0' as int == d
  {
    ('0' as int + d) as char
  }

  /** `n.toString()` for a non-negative integer: its decimal digits, most significant first. */
  function Decimal(n: nat): (s: string)
    ensures |s| >= 1
    ensures forall i :: 0 <= i < |s| ==> Text.IsDigit(s[i])
    ensures n >= 10 ==> s[0] != '0'
  {
    if n < 10 then [DigitChar(n)] else Decimal(n / 10) + [DigitChar(n % 10)]
  }

  /** The value of a string of decimal digits. */
  function DigitsValue(s: string): nat
    requires forall i :: 0 <= i < |s| ==> Text.IsDigit(s[i])
  {
    if s == [] then 0
    else
      assert Text.IsDigit(s[|s| - 1]);
      DigitsValue(s[..|s| - 1]) * 10 + (s[|s| - 1] as int - '0' as int)
  }

  /** Reading back the decimal string of `n` gives `n`. */
  lemma {:induction false} DecimalRoundTrip(n: nat)
    ensures DigitsValue(Decimal(n)) == n
  {
    var s := Decimal(n);
    if n >= 10 {
      DecimalRoundTrip(n / 10);
      assert s[..|s| - 1] == Decimal(n / 10);
    }
  }

  /** A number with one more decimal digit than `n / 10`. */
  lemma DecimalStep(n: nat)
    requires n >= 10
    ensures |Decimal(n)| == |Decimal(n / 10)| + 1
  {
  }

  /** Every integer in [10000, 99999] is written with exactly five digits. */
  lemma {:induction false} FiveDigits(n: nat)
    requires 10000 <= n <= 99999
    ensures |Decimal(n)| == 5
  {
    DecimalStep(n);
    DecimalStep(n / 10);
    DecimalStep(n / 100);
    DecimalStep(n / 1000);
    assert n / 10 / 10 == n / 100 && n / 100 / 10 == n / 1000 && n / 1000 / 10 == n / 10000;
    assert n / 10000 < 10;
  }

  /**
   * `generateGroupCode`: `10000 + r` in decimal, where `r` is the random draw
   * in [0, 90000). The code is in the join form's five-digit format and reads
   * back as `10000 + r`.
   */
  function GenerateGroupCode(r: nat): (code: string)
    requires r < 90000
    ensures IsGroupCode(code)
    ensures DigitsValue(code) == 10000 + r
  {
    FiveDigits(10000 + r);
    DecimalRoundTrip(10000 + r);
    Decimal(10000 + r)
  }

  /** Distinct draws give distinct codes. */
  lemma CodesDistinct(r1: nat, r2: nat)
    requires r1 < 90000 && r2 < 90000 && r1 != r2
    ensures GenerateGroupCode(r1) != GenerateGroupCode(r2)
  {
  }

  /** The state of the create form. */
  class Form {
    const db: Database
    const uid: Uid
    var groupName: string
    var password: string
    var error: string
    var loading: bool

    constructor (db: Database, uid: Uid)
      ensures this.db == db && this.uid == uid
      ensures groupName == "" && password == "" && error == "" && !loading
    {
      this.db, this.uid := db, uid;
      groupName, password, error, loading := "", "", "", false;
    }

    /** The name input's change handler. */
    method SetGroupName(value: string)
      modifies this`groupName
      ensures groupName == value
    {
      groupName := value;
    }

    /** The password input's change handler. */
    method SetPassword(value: string)
      modifies this`password
      ensures password == value
    {
      password := value;
    }

    /**
     * The submit handler. `r` is the random draw behind the code, `newId` the
     * id the database assigns to the new document and `write` the outcome of
     * adding it. A password shorter than six characters is refused before
     * anything else happens. Otherwise the new group holds the name and
     * password as entered, the code, the creator as owner and as its only
     * member; every existing group is left as it was. On success `loading`
     * stays set (the screen navigates away); on failure it is reset.
     */
    method HandleSubmit(r: nat, newId: DocId, write: Reply)
      requires r < 90000
      requires newId !in db.groups
      modifies this`error, this`loading, db`groups
      ensures |password| < MinPasswordLength ==>
        error == PasswordTooShort && loading == old(loading) && db.groups == old(db.groups)
      ensures |password| >= MinPasswordLength && write.Rejected? ==>
        error == CreateFailedPrefix + write.message && !loading && db.groups == old(db.groups)
      ensures |password| >= MinPasswordLength && write.Done? ==>
        && error == "" && loading
        && newId in db.groups
        && db.groups[newId] == Group(groupName, password, GenerateGroupCode(r), uid, [uid])
        && db.groups.Keys == old(db.groups.Keys) + {newId}
        && |db.groups| == |old(db.groups)| + 1
      ensures forall id :: id in old(db.groups) ==> id in db.groups && db.groups[id] == old(db.groups[id])
      ensures MembersDistinct(old(db.groups)) ==> MembersDistinct(db.groups)
    {
      if |password| < MinPasswordLength {
        error := PasswordTooShort;
        return;
      }
      error := "";
      loading := true;
      var code := GenerateGroupCode(r);
      var group := Group(groupName, password, code, uid, [uid]);
      if write.Rejected? {
        error := CreateFailedPrefix + write.message;
        loading := false;
      } else {
        db.groups := db.groups[newId := group];
      }
    }
  }
}
