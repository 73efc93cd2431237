/** The reset-password store
    (src/app/module/account/reset-password/reset-password.store.ts): the
    `reset_passwords` table in insertion order. The random token, the bcrypt
    hash and comparison and the clock are passed in. */
module ResetPasswordStore {
  import opened Common

  /** A row of `reset_passwords`; `expiredAt` is in milliseconds and `token` holds
      the hash of the token handed out. */
  datatype Record = Record(email: string, expiredAt: int, token: string)

  /** How long a token stays valid: one hour, in milliseconds. */
  const HOUR := 60 * 60 * 1000

  /** `crypto.randomBytes(32).toString('hex')`: 64 lower-case hex digits. */
  predicate HexToken(t: string) {
    |t| == 64 && forall k :: 0 <= k < |t| ==> t[k] in "0123456789abcdef"
  }

  /** `delete from reset_passwords where email = ...`: the remaining rows, in order. */
  function Without(records: seq<Record>, email: string): (r: seq<Record>)
    ensures forall x :: x in r <==> x in records && x.email != email
    ensures |r| <= |records|
  {
    if records == [] then []
    else (if records[0].email == email then [] else [records[0]]) + Without(records[1..], email)
  }

  /** The rows with a given email. */
  function WithEmail(records: seq<Record>, email: string): (r: seq<Record>)
    ensures forall x :: x in r <==> x in records && x.email == email
  {
    if records == [] then []
    else (if records[0].email == email then [records[0]] else []) + WithEmail(records[1..], email)
  }

  /** `executeTakeFirst()` on the rows with the email. */
  function FirstWithEmail(records: seq<Record>, email: string): (r: Option<Record>)
    ensures r.Some? <==> WithEmail(records, email) != []
    ensures r.Some? ==> r.value == WithEmail(records, email)[0]
  {
    if WithEmail(records, email) == [] then None else Some(WithEmail(records, email)[0])
  }

  /** What `verify(email, token)` answers at time `now`: the first record for the
      email must exist, hold the token's hash, and not have expired. */
  function Verification(records: seq<Record>, email: string, token: string,
                        compare: (string, string) -> bool, now: int): (ok: bool)
    ensures ok <==> (FirstWithEmail(records, email).Some?
      && compare(token, FirstWithEmail(records, email).value.token)
      && now < FirstWithEmail(records, email).value.expiredAt)
  {
    match FirstWithEmail(records, email)
    case None => false
    case Some(rp) => if !compare(token, rp.token) then false else now < rp.expiredAt
  }

  class ResetPasswordStore {
    var records: seq<Record>

    constructor(records: seq<Record>)
      ensures this.records == records
    {
      this.records := records;
    }

    /** `delete(email)`: removes every record for the email and no other. */
    method Delete(email: string)
      modifies this
      ensures records == Without(old(records), email)
    {
      records := Without(records, email);
    }

    /** `create(email)`: drops the email's old records, then stores the hash of
        the fresh token, valid for an hour from `now`, and hands out the token. */
    method Create(email: string, now: int, token: string, hash: string -> string) returns (t: string)
      requires HexToken(token)
      modifies this
      ensures t == token
      ensures records == Without(old(records), email) + [Record(email, now + HOUR, hash(token))]
    {
      var expiry := now + HOUR;
      if FirstWithEmail(records, email).Some? {
        Delete(email);
      } else {
        WithoutAbsent(records, email);
      }
      records := records + [Record(email, expiry, hash(token))];
      t := token;
    }

    /** `verify(email, token)` at time `now`. */
    method Verify(email: string, token: string, compare: (string, string) -> bool, now: int) returns (ok: bool)
      ensures ok == Verification(records, email, token, compare, now)
    {
      var rp := FirstWithEmail(records, email);
      if rp.None? {
        return false;
      }
      var isValid := compare(token, rp.value.token);
      if !isValid {
        return false;
      }
      ok := now < rp.value.expiredAt;
    }
  }

  /** Deleting an email that has no record changes nothing. */
  lemma {:induction false} WithoutAbsent(records: seq<Record>, email: string)
    requires WithEmail(records, email) == []
    ensures Without(records, email) == records
  {
    if records != [] {
      var head, tail := records[0], records[1..];
      assert head.email != email by {
        assert head in records;
        assert head !in WithEmail(records, email);
      }
      assert WithEmail(records, email) == [] + WithEmail(tail, email);
      WithoutAbsent(tail, email);
      assert Without(records, email) == [head] + Without(tail, email);
      assert records == [head] + tail;
    }
  }

  /** Deleting one email leaves every other email's records as they were. */
  lemma {:induction false} WithoutKeepsOthers(records: seq<Record>, email: string, other: string)
    requires other != email
    ensures WithEmail(Without(records, email), other) == WithEmail(records, other)
  {
    if records != [] {
      WithoutKeepsOthers(records[1..], email, other);
      var head := if records[0].email == email then [] else [records[0]];
      WithEmailAppend(head, Without(records[1..], email), other);
    }
  }

  lemma {:induction false} WithEmailAppend(a: seq<Record>, b: seq<Record>, email: string)
    ensures WithEmail(a + b, email) == WithEmail(a, email) + WithEmail(b, email)
  {
    if a != [] {
      WithEmailAppend(a[1..], b, email);
      assert (a + b)[1..] == a[1..] + b;
    } else {
      assert a + b == b;
    }
  }

  /** After `create`, the email has exactly one record: the new one. */
  lemma CreateLeavesOneRecord(records: seq<Record>, email: string, r: Record)
    requires r.email == email
    ensures WithEmail(Without(records, email) + [r], email) == [r]
  {
    NoneLeft(records, email);
    WithEmailAppend(Without(records, email), [r], email);
    assert WithEmail([r], email) == [r] by {
      assert [r][1..] == [];
    }
  }

  /** Deleting an email leaves no record for it. */
  lemma {:induction false} NoneLeft(records: seq<Record>, email: string)
    ensures WithEmail(Without(records, email), email) == []
  {
    if records != [] {
      NoneLeft(records[1..], email);
      var head := if records[0].email == email then [] else [records[0]];
      WithEmailAppend(head, Without(records[1..], email), email);
    }
  }

  /** The token `create` hands out verifies until its hour is over, provided the
      comparison accepts a token against its own hash; after that it does not. */
  lemma CreateThenVerify(records: seq<Record>, email: string, created: int, token: string,
                         hash: string -> string, compare: (string, string) -> bool, now: int)
    requires compare(token, hash(token))
    ensures var after := Without(records, email) + [Record(email, created + HOUR, hash(token))];
      Verification(after, email, token, compare, now) <==> now < created + HOUR
  {
    var r := Record(email, created + HOUR, hash(token));
    CreateLeavesOneRecord(records, email, r);
  }

  /** Once the email's records are deleted, no token verifies for it. */
  lemma VerifyAfterDelete(records: seq<Record>, email: string, token: string,
                          compare: (string, string) -> bool, now: int)
    ensures !Verification(Without(records, email), email, token, compare, now)
  {
    NoneLeft(records, email);
  }

  /** A wrong token never verifies, however fresh the record. */
  lemma WrongTokenRejected(records: seq<Record>, email: string, token: string,
                           compare: (string, string) -> bool, now: int)
    requires FirstWithEmail(records, email).Some? && !compare(token, FirstWithEmail(records, email).value.token)
    ensures !Verification(records, email, token, compare, now)
  {
  }
}
