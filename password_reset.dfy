/**
  The password-reset token store of the authentication controller: an
  in-memory map from employee id to the last issued six-digit token and its
  expiry time. Three request handlers drive it: forgot-password issues a
  token, verify-token checks one (and drops it once expired), and
  reset-password consumes one after the new password is stored.

  The database lookups, the password hashing, the e-mail delivery, the clock
  and the random source are outside this model: their outcomes are
  parameters of the handlers. Each handler is one atomic step.
*/
module PasswordReset {

  type EmployeeId = string

  /** How long an issued token stays valid: 15 minutes, in milliseconds. */
  const TOKEN_LIFETIME_MS: int := 15 * 60 * 1000

  /** What the store keeps per employee. */
  datatype ResetEntry = ResetEntry(token: string, expiry: int)

  /** The outcome of looking the employee up by id and e-mail address. */
  datatype Lookup = UserFound | NoUser | QueryFailed

  /** The replies the three handlers send. */
  datatype Outcome =
    | InstructionsSent   // forgot-password: token stored and mailed
    | UserNotFound       // forgot-password: no user with that id and e-mail
    | InvalidToken       // verify / reset: no entry, or a different token
    | TokenExpired       // verify: the entry was past its expiry (and is dropped)
    | TokenVerified      // verify: the token is good
    | PasswordChanged    // reset: password stored, token consumed
    | ServerError        // a query, the hashing or the mail failed
  {
    /** The HTTP status of the reply. */
    function Status(): nat {
      match this
      case InstructionsSent | TokenVerified | PasswordChanged => 200
      case UserNotFound => 404
      case InvalidToken | TokenExpired => 400
      case ServerError => 500
    }
  }

  // ---------------------------------------------------------------------
  // Token generation: floor(100000 + r * 900000) written in decimal.
  // ---------------------------------------------------------------------

  predicate IsDigit(c: char) {
    '0' <= c <= '9'
  }

  predicate AllDigits(s: string) {
    forall i :: 0 <= i < |s| ==> IsDigit(s[i])
  }

  function DigitChar(d: nat): (c: char)
    requires d < 10
    ensures IsDigit(c) && c as int - '0' as int == d
  {
    ('0' as int + d) as char
  }

  function Pow10(k: nat): (p: nat)
    ensures p >= 1
  {
    if k == 0 then 1 else 10 * Pow10(k - 1)
  }

  /** The decimal rendering of a natural number, most significant digit first. */
  function DecimalString(n: nat): (s: string)
    ensures |s| >= 1 && AllDigits(s)
  {
    if n < 10 then [DigitChar(n)] else DecimalString(n / 10) + [DigitChar(n % 10)]
  }

  /** The number a string of decimal digits denotes. */
  function DecimalValue(s: string): nat
    requires AllDigits(s)
  {
    if s == [] then 0 else 10 * DecimalValue(s[..|s| - 1]) + (s[|s| - 1] as int - '0' as int)
  }

  /** Reading back a rendered number gives the number. */
  lemma {:induction false} DecimalRoundTrip(n: nat)
    ensures DecimalValue(DecimalString(n)) == n
  {
    if n >= 10 {
      var s := DecimalString(n / 10);
      assert (s + [DigitChar(n % 10)])[..|s|] == s;
      DecimalRoundTrip(n / 10);
    }
  }

  /** A number with k digits is rendered with exactly k characters. */
  lemma {:induction false} DecimalLength(n: nat, k: nat)
    requires k >= 1 && Pow10(k - 1) <= n < Pow10(k)
    ensures |DecimalString(n)| == k
  {
    if k > 1 {
      DecimalLength(n / 10, k - 1);
    }
  }

  /** The number behind a generated token, given the random value r. */
  function TokenNumber(r: real): (n: int)
    requires 0.0 <= r < 1.0
    ensures 100000 <= n <= 999999
  {
    (100000.0 + r * 900000.0).Floor
  }

  /** A well-formed reset token: six decimal digits, the first one not zero. */
  predicate IsResetToken(s: string) {
    |s| == 6 && AllDigits(s) && DecimalValue(s) >= 100000
  }

  function GenerateResetToken(r: real): (token: string)
    requires 0.0 <= r < 1.0
    ensures IsResetToken(token)
    ensures DecimalValue(token) == TokenNumber(r)
  {
    var n := TokenNumber(r);
    assert Pow10(5) == 100000 && Pow10(6) == 1000000 by {
      assert Pow10(1) == 10 && Pow10(2) == 100 && Pow10(3) == 1000 && Pow10(4) == 10000;
    }
    DecimalLength(n, 6);
    DecimalRoundTrip(n);
    DecimalString(n)
  }

  // ---------------------------------------------------------------------
  // The store
  // ---------------------------------------------------------------------

  /** The map holds an entry for `id` and its token is `token`. */
  predicate Matches(entries: map<EmployeeId, ResetEntry>, id: EmployeeId, token: string) {
    id in entries && entries[id].token == token
  }

  /** The two maps agree on every key other than `id`. */
  ghost predicate AgreeExcept(before: map<EmployeeId, ResetEntry>, after: map<EmployeeId, ResetEntry>, id: EmployeeId) {
    forall k :: k != id ==> (k in before <==> k in after) && (k in before ==> before[k] == after[k])
  }

  class ResetTokenStore {
    var entries: map<EmployeeId, ResetEntry>

    /** Every stored token is one the generator can produce. */
    ghost predicate Valid()
      reads this
    {
      forall id :: id in entries ==> IsResetToken(entries[id].token)
    }

    constructor ()
      ensures Valid() && entries == map[]
    {
      entries := map[];
    }

    /** Forgot-password: when the lookup finds the user, store a fresh token
        expiring 15 minutes from `now`, replacing any earlier one. The reply
        is an error if the lookup query or the mail fails; a failed mail
        leaves the new token stored. */
    method ForgotPassword(employeeId: EmployeeId, lookup: Lookup, r: real, now: int, mailSent: bool)
      returns (outcome: Outcome)
      requires Valid()
      requires 0.0 <= r < 1.0
      modifies this
      ensures Valid()
      ensures AgreeExcept(old(entries), entries, employeeId)
      ensures lookup == UserFound ==>
        entries == old(entries)[employeeId := ResetEntry(GenerateResetToken(r), now + TOKEN_LIFETIME_MS)]
      ensures lookup != UserFound ==> entries == old(entries)
      ensures outcome == match lookup
        case QueryFailed => ServerError
        case NoUser => UserNotFound
        case UserFound => if mailSent then InstructionsSent else ServerError
    {
      match lookup {
        case QueryFailed =>
          outcome := ServerError;
        case NoUser =>
          outcome := UserNotFound;
        case UserFound =>
          var token := GenerateResetToken(r);
          entries := entries[employeeId := ResetEntry(token, now + TOKEN_LIFETIME_MS)];
          outcome := if mailSent then InstructionsSent else ServerError;
      }
    }

    /** Verify-token: a missing or different token is rejected; a matching
        one past its expiry (strictly) is dropped and rejected; otherwise it
        is accepted and left in place. */
    method VerifyResetToken(employeeId: EmployeeId, token: string, now: int) returns (outcome: Outcome)
      requires Valid()
      modifies this
      ensures Valid()
      ensures AgreeExcept(old(entries), entries, employeeId)
      ensures !Matches(old(entries), employeeId, token) ==>
        outcome == InvalidToken && entries == old(entries)
      ensures Matches(old(entries), employeeId, token) && now > old(entries)[employeeId].expiry ==>
        outcome == TokenExpired && entries == old(entries) - {employeeId}
      ensures Matches(old(entries), employeeId, token) && now <= old(entries)[employeeId].expiry ==>
        outcome == TokenVerified && entries == old(entries)
      // only a well-formed six-digit token can ever be accepted
      ensures outcome == TokenVerified ==> IsResetToken(token)
    {
      if employeeId !in entries || entries[employeeId].token != token {
        outcome := InvalidToken;
        return;
      }
      if now > entries[employeeId].expiry {
        entries := entries - {employeeId};
        outcome := TokenExpired;
        return;
      }
      outcome := TokenVerified;
    }

    /** Reset-password: the token must be present and equal, but its expiry
        is not looked at. The entry is removed only once hashing and storing
        the new password (`updated`) succeeded. */
    method ResetPassword(employeeId: EmployeeId, token: string, updated: bool) returns (outcome: Outcome)
      requires Valid()
      modifies this
      ensures Valid()
      ensures AgreeExcept(old(entries), entries, employeeId)
      ensures !Matches(old(entries), employeeId, token) ==>
        outcome == InvalidToken && entries == old(entries)
      ensures Matches(old(entries), employeeId, token) && updated ==>
        outcome == PasswordChanged && entries == old(entries) - {employeeId}
      ensures Matches(old(entries), employeeId, token) && !updated ==>
        outcome == ServerError && entries == old(entries)
      ensures outcome == PasswordChanged ==> IsResetToken(token)
    {
      if employeeId !in entries || entries[employeeId].token != token {
        outcome := InvalidToken;
        return;
      }
      if updated {
        entries := entries - {employeeId};
        outcome := PasswordChanged;
      } else {
        outcome := ServerError;
      }
    }
  }

  // ---------------------------------------------------------------------
  // Request sequences and what they answer
  // ---------------------------------------------------------------------

  /** Only verify-token enforces the expiry: a reset long after the token
      expired still succeeds, unless a verify call dropped the entry first. */
  method ExpiryEnforcedOnlyByVerify(employeeId: EmployeeId, r: real, issuedAt: int, later: int)
    returns (resetLate: Outcome, verifyLate: Outcome, resetAfterVerify: Outcome)
    requires 0.0 <= r < 1.0
    requires later > issuedAt + TOKEN_LIFETIME_MS
    ensures resetLate == PasswordChanged
    ensures verifyLate == TokenExpired && resetAfterVerify == InvalidToken
  {
    var token := GenerateResetToken(r);

    var unchecked := new ResetTokenStore();
    var sent := unchecked.ForgotPassword(employeeId, UserFound, r, issuedAt, true);
    resetLate := unchecked.ResetPassword(employeeId, token, true);

    var checked := new ResetTokenStore();
    sent := checked.ForgotPassword(employeeId, UserFound, r, issuedAt, true);
    verifyLate := checked.VerifyResetToken(employeeId, token, later);
    resetAfterVerify := checked.ResetPassword(employeeId, token, true);
  }

  /** A token verifies up to and including its expiry instant, verifying does
      not consume it, and a successful reset does. */
  method TokenLifecycle(employeeId: EmployeeId, r: real, issuedAt: int)
    returns (atExpiry: Outcome, again: Outcome, reset: Outcome, afterReset: Outcome)
    requires 0.0 <= r < 1.0
    ensures atExpiry == TokenVerified && again == TokenVerified
    ensures reset == PasswordChanged && afterReset == InvalidToken
  {
    var token := GenerateResetToken(r);
    var store := new ResetTokenStore();
    var sent := store.ForgotPassword(employeeId, UserFound, r, issuedAt, true);
    atExpiry := store.VerifyResetToken(employeeId, token, issuedAt + TOKEN_LIFETIME_MS);
    again := store.VerifyResetToken(employeeId, token, issuedAt + TOKEN_LIFETIME_MS);
    reset := store.ResetPassword(employeeId, token, true);
    afterReset := store.VerifyResetToken(employeeId, token, issuedAt);
  }

  /** A second forgot-password request replaces the first token. */
  method NewRequestReplacesToken(employeeId: EmployeeId, r1: real, r2: real, now: int)
    returns (first: Outcome, second: Outcome)
    requires 0.0 <= r1 < 1.0 && 0.0 <= r2 < 1.0
    requires GenerateResetToken(r1) != GenerateResetToken(r2)
    ensures first == InvalidToken && second == TokenVerified
  {
    var store := new ResetTokenStore();
    var sent := store.ForgotPassword(employeeId, UserFound, r1, now, true);
    sent := store.ForgotPassword(employeeId, UserFound, r2, now, true);
    first := store.VerifyResetToken(employeeId, GenerateResetToken(r1), now);
    second := store.VerifyResetToken(employeeId, GenerateResetToken(r2), now);
  }

  /** A failed password update keeps the token, so the reset can be retried;
      an unknown user or a failed lookup stores nothing. */
  method FailuresKeepOrStoreNothing(employeeId: EmployeeId, r: real, now: int)
    returns (failed: Outcome, retried: Outcome, unknown: Outcome, afterUnknown: Outcome)
    requires 0.0 <= r < 1.0
    ensures failed == ServerError && retried == PasswordChanged
    ensures unknown == UserNotFound && afterUnknown == InvalidToken
  {
    var token := GenerateResetToken(r);
    var store := new ResetTokenStore();
    var sent := store.ForgotPassword(employeeId, UserFound, r, now, false);
    failed := store.ResetPassword(employeeId, token, false);
    retried := store.ResetPassword(employeeId, token, true);

    var other := new ResetTokenStore();
    unknown := other.ForgotPassword(employeeId, NoUser, r, now, true);
    afterUnknown := other.ResetPassword(employeeId, token, true);
  }
}
