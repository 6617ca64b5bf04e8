/**
 * The administrator credential store (js/services/auth.js with the constants
 * of js/config.js): password and e-mail, a session stamp that expires after 30
 * minutes, and a recovery code that expires after 15. The browser's key-value
 * storage is a map field; the clock is a parameter in milliseconds.
 */
module Auth {
  import opened Text

  const DEFAULT_PASSWORD: string := "admin123"
  /** The emergency code accepted in place of any password. */
  const MASTER_CODE: string := "FREITAS2025RESET"
  const STORAGE_KEY: string := "caixa_freitas_custom_password"
  const EMAIL_KEY: string := "caixa_freitas_admin_email"
  const SESSION_KEY: string := "caixa_freitas_session"
  const RECOVERY_CODE_KEY: string := "caixa_freitas_recovery_code"
  /** Minutes. */
  const SESSION_TIMEOUT: int := 30
  const RECOVERY_CODE_TIMEOUT: int := 15
  const MIN_PASSWORD_LENGTH: nat := 4
  const MS_PER_MINUTE: int := 60000

  /**
   * A stored value: plain text, or one of the two JSON records the store
   * writes (their serialisation is not modelled).
   */
  datatype Entry = Text(value: string) | SessionRecord(timestamp: int) | RecoveryRecord(code: string, timestamp: int)

  datatype AuthError = InvalidEmail | PasswordTooShort

  /** The outcome of a configuration call: stored, or the error it throws. */
  datatype Outcome = Stored | Invalid(error: AuthError)

  /** Age in minutes, as the source computes it from two millisecond stamps. */
  function AgeMinutes(now: int, timestamp: int): real {
    (now - timestamp) as real / 1000.0 / 60.0
  }

  /** The four storage keys the store uses. */
  datatype StorageKey = PasswordKey | EmailKey | SessionKey | RecoveryCodeKey

  /** The storage key's name in the browser's key-value storage. */
  function KeyName(k: StorageKey): string {
    match k
    case PasswordKey => STORAGE_KEY
    case EmailKey => EMAIL_KEY
    case SessionKey => SESSION_KEY
    case RecoveryCodeKey => RECOVERY_CODE_KEY
  }

  /** Different keys name different storage entries, so a map over keys is the key-value storage. */
  lemma KeyNamesDistinct(a: StorageKey, b: StorageKey)
    ensures a != b ==> KeyName(a) != KeyName(b)
  {
    if a != b {
      assert KeyName(a)[14] != KeyName(b)[14];
    }
  }

  class CredentialStore {
    var store: map<StorageKey, Entry>

    /** Each of the four keys holds the kind of value the store writes under it. */
    ghost predicate Valid()
      reads this
    {
      && (PasswordKey in store ==> store[PasswordKey].Text?)
      && (EmailKey in store ==> store[EmailKey].Text?)
      && (SessionKey in store ==> store[SessionKey].SessionRecord?)
      && (RecoveryCodeKey in store ==> store[RecoveryCodeKey].RecoveryRecord?)
    }

    constructor (initial: map<StorageKey, Entry>)
      ensures store == initial
    {
      store := initial;
    }

    /** `localStorage.getItem` for a text key. */
    function StoredText(key: StorageKey): (r: string)
      reads this
      ensures key in store && store[key].Text? ==> r == store[key].value
      ensures !(key in store && store[key].Text?) ==> r == ""
    {
      if key in store && store[key].Text? then store[key].value else ""
    }

    /** `getPassword`: the custom password when one is stored and non-empty, else the default. */
    function GetPassword(): (p: string)
      reads this
      ensures p != ""
      ensures StoredText(PasswordKey) != "" ==> p == StoredText(PasswordKey)
      ensures StoredText(PasswordKey) == "" ==> p == DEFAULT_PASSWORD
    {
      var custom := StoredText(PasswordKey);
      if custom != "" then custom else DEFAULT_PASSWORD
    }

    /** `hasConfiguration`: both the password and the e-mail key are present. */
    predicate HasConfiguration()
      reads this
    {
      PasswordKey in store && EmailKey in store
    }

    /** `validatePassword`: the master code always passes; otherwise exact equality with the current password. */
    predicate ValidatePassword(input: string)
      reads this
    {
      if input == MASTER_CODE then true else input == GetPassword()
    }

    /** The password check accepts exactly the master code and the current password, custom or default. */
    lemma PasswordAccepted(input: string)
      ensures ValidatePassword(input) <==>
        || input == MASTER_CODE
        || (StoredText(PasswordKey) != "" && input == StoredText(PasswordKey))
        || (StoredText(PasswordKey) == "" && input == DEFAULT_PASSWORD)
    {
    }

    /** Whatever the store holds, its current password validates. */
    lemma CurrentPasswordValidates()
      ensures ValidatePassword(GetPassword())
    {
    }

    /** `validateEmail`: false without a stored e-mail; otherwise the trimmed, lower-cased input must equal it. */
    predicate ValidateEmail(input: string)
      reads this
    {
      var stored := StoredText(EmailKey);
      if stored == "" then false else ToLower(Trim(input)) == stored
    }

    /** Surrounding white space never changes the e-mail check. */
    lemma EmailIgnoresPadding(input: string)
      ensures ValidateEmail(Trim(input)) == ValidateEmail(input)
      ensures ValidateEmail(input) ==> StoredText(EmailKey) != ""
    {
      TrimIdempotent(input);
    }

    /** `hasActiveSession`: a session is stored and is strictly younger than the timeout. */
    predicate HasActiveSession(now: int)
      reads this
    {
      SessionKey in store && store[SessionKey].SessionRecord?
      && AgeMinutes(now, store[SessionKey].timestamp) < SESSION_TIMEOUT as real
    }

    /** The session test in milliseconds: younger than 30 minutes exactly when less than 1 800 000 ms old. */
    lemma ActiveSessionInMilliseconds(now: int)
      ensures HasActiveSession(now) <==>
        SessionKey in store && store[SessionKey].SessionRecord?
        && now - store[SessionKey].timestamp < SESSION_TIMEOUT * MS_PER_MINUTE
    {
      if SessionKey in store && store[SessionKey].SessionRecord? {
        var d := now - store[SessionKey].timestamp;
        assert AgeMinutes(now, store[SessionKey].timestamp) == d as real / 60000.0;
      }
    }

    /** `setConfiguration`: checks the e-mail, then the password; stores both trimmed, the e-mail lower-cased. */
    method SetConfiguration(email: string, password: string) returns (r: Outcome)
      modifies this
      ensures r == Invalid(InvalidEmail) <==> email == "" || '@' !in email
      ensures r == Invalid(PasswordTooShort) <==> email != "" && '@' in email && |Trim(password)| < MIN_PASSWORD_LENGTH
      ensures r.Invalid? ==> store == old(store)
      ensures r.Stored? ==> store == old(store)[EmailKey := Text(ToLower(Trim(email)))][PasswordKey := Text(Trim(password))]
      ensures old(Valid()) ==> Valid()
      ensures r.Stored? ==> HasConfiguration() && ValidateEmail(email) && ValidatePassword(Trim(password))
    {
      if email == "" || '@' !in email {
        return Invalid(InvalidEmail);
      }
      if |Trim(password)| < MIN_PASSWORD_LENGTH {
        return Invalid(PasswordTooShort);
      }
      var e, p := ToLower(Trim(email)), Trim(password);
      store := store[EmailKey := Text(e)][PasswordKey := Text(p)];
      assert StoredText(EmailKey) == e && StoredText(PasswordKey) == p;
      ConfiguredValidates(email, password);
      r := Stored;
    }

    /** Once an e-mail and a password are stored as `setConfiguration` stores them, both validate. */
    lemma ConfiguredValidates(email: string, password: string)
      requires '@' in email && |Trim(password)| >= MIN_PASSWORD_LENGTH
      requires StoredText(EmailKey) == ToLower(Trim(email)) && StoredText(PasswordKey) == Trim(password)
      ensures ValidateEmail(email) && ValidatePassword(Trim(password))
    {
      assert '@' in Trim(email);
      assert |ToLower(Trim(email))| > 0;
    }

    /** `updatePassword`: the same length rule; the e-mail is kept. */
    method UpdatePassword(newPassword: string) returns (r: Outcome)
      modifies this
      ensures r == Invalid(PasswordTooShort) <==> |Trim(newPassword)| < MIN_PASSWORD_LENGTH
      ensures r.Invalid? ==> store == old(store)
      ensures r.Stored? ==> store == old(store)[PasswordKey := Text(Trim(newPassword))]
      ensures r.Stored? ==> GetPassword() == Trim(newPassword) && ValidatePassword(Trim(newPassword))
      ensures StoredText(EmailKey) == old(StoredText(EmailKey))
      ensures old(Valid()) ==> Valid()
    {
      var p := Trim(newPassword);
      if |p| < MIN_PASSWORD_LENGTH {
        return Invalid(PasswordTooShort);
      }
      store := store[PasswordKey := Text(p)];
      assert GetPassword() == p;
      CurrentPasswordValidates();
      r := Stored;
    }

    /** `startSession`: stamps a session now; it is active from this moment. */
    method StartSession(now: int)
      modifies this
      ensures store == old(store)[SessionKey := SessionRecord(now)]
      ensures HasActiveSession(now)
      ensures old(Valid()) ==> Valid()
    {
      store := store[SessionKey := SessionRecord(now)];
    }

    /** `endSession`: the session is removed; none is active afterwards. */
    method EndSession()
      modifies this
      ensures store == old(store) - {SessionKey}
      ensures forall now :: !HasActiveSession(now)
      ensures old(Valid()) ==> Valid()
    {
      store := store - {SessionKey};
    }

    /** `saveRecoveryCode`: the code is stored with the current time. */
    method SaveRecoveryCode(code: string, now: int)
      modifies this
      ensures store == old(store)[RecoveryCodeKey := RecoveryRecord(code, now)]
      ensures old(Valid()) ==> Valid()
    {
      store := store[RecoveryCodeKey := RecoveryRecord(code, now)];
    }

    /** `clearRecoveryCode`. */
    method ClearRecoveryCode()
      modifies this
      ensures store == old(store) - {RecoveryCodeKey}
      ensures old(Valid()) ==> Valid()
    {
      store := store - {RecoveryCodeKey};
    }

    /**
     * `validateRecoveryCode`: false without a stored code; a code older than
     * the timeout is removed and fails; otherwise the input must equal it.
     */
    method ValidateRecoveryCode(input: string, now: int) returns (ok: bool)
      modifies this
      ensures !(RecoveryCodeKey in old(store) && old(store)[RecoveryCodeKey].RecoveryRecord?) ==>
        !ok && store == old(store)
      ensures RecoveryCodeKey in old(store) && old(store)[RecoveryCodeKey].RecoveryRecord? ==>
        var rec := old(store)[RecoveryCodeKey];
        if now - rec.timestamp > RECOVERY_CODE_TIMEOUT * MS_PER_MINUTE
        then !ok && store == old(store) - {RecoveryCodeKey}
        else ok == (input == rec.code) && store == old(store)
      ensures old(Valid()) ==> Valid()
    {
      if RecoveryCodeKey !in store || !store[RecoveryCodeKey].RecoveryRecord? {
        return false;
      }
      var rec := store[RecoveryCodeKey];
      var age := AgeMinutes(now, rec.timestamp);
      assert age == (now - rec.timestamp) as real / 60000.0;
      if age > RECOVERY_CODE_TIMEOUT as real {
        ClearRecoveryCode();
        return false;
      }
      ok := input == rec.code;
    }

    /** `resetConfiguration`: password, e-mail, session and recovery code are removed; the default password is returned. */
    method ResetConfiguration() returns (p: string)
      modifies this
      ensures store == old(store) - {PasswordKey, EmailKey, SessionKey, RecoveryCodeKey}
      ensures p == DEFAULT_PASSWORD == GetPassword()
      ensures !HasConfiguration() && ValidatePassword(DEFAULT_PASSWORD)
      ensures old(Valid()) ==> Valid()
    {
      store := store - {PasswordKey, EmailKey};
      EndSession();
      ClearRecoveryCode();
      assert store == old(store) - {PasswordKey, EmailKey, SessionKey, RecoveryCodeKey};
      p := DEFAULT_PASSWORD;
    }
  }
}
