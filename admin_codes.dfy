/** The `admin_confirmation_codes` table: seeding it with the default codes,
    and the two ways a code is checked and marked used (the database helper
    alone, and the registration server with its built-in fallback list). */
module AdminCodes {
  /** The codes seeded into the table and, on the server, accepted whatever
      the table says. */
  const DefaultCodes: seq<string> := ["ADMIN2024", "MATMARKET_ADMIN", "SUPER_ADMIN_123"]

  /** Whether the database answers; a call to an unreachable database throws. */
  datatype DbStatus = Reachable | Unreachable

  /** The table as a map from `code` (a UNIQUE column) to `is_used`. */
  type CodeRows = map<string, bool>

  /** An `insert({ code })`: a new row starts unused, and a code already in
      the table is refused as a duplicate, leaving the table as it was. */
  function InsertCode(rows: CodeRows, code: string): (r: CodeRows)
    ensures code in r && r.Keys == rows.Keys + {code}
    ensures code in rows ==> r == rows
    ensures code !in rows ==> !r[code]
    ensures forall c :: c in rows ==> r[c] == rows[c]
  {
    if code in rows then rows else rows[code := false]
  }

  /** The table after inserting each of `codes` in turn. */
  function AddMissing(rows: CodeRows, codes: seq<string>): (r: CodeRows)
    ensures forall c :: c in r <==> c in rows || c in codes
    ensures forall c :: c in rows ==> r[c] == rows[c]
    ensures forall c :: c in r && c !in rows ==> !r[c]
  {
    if codes == [] then rows
    else
      var prev := AddMissing(rows, codes[..|codes| - 1]);
      var last := codes[|codes| - 1];
      assert forall c :: c in codes <==> c in codes[..|codes| - 1] || c == last;
      InsertCode(prev, last)
  }

  /** The codes, in order, whose call the database answered. */
  function Answered(codes: seq<string>, calls: seq<DbStatus>): (r: seq<string>)
    requires |calls| == |codes|
    ensures forall c :: c in r ==> c in codes
    ensures forall i :: 0 <= i < |codes| && calls[i] == Reachable ==> codes[i] in r
    ensures (forall i :: 0 <= i < |calls| ==> calls[i] == Reachable) ==> r == codes
    ensures (forall i :: 0 <= i < |calls| ==> calls[i] == Unreachable) ==> r == []
  {
    if codes == [] then []
    else
      var n := |codes| - 1;
      var prev := Answered(codes[..n], calls[..n]);
      assert forall i :: 0 <= i < n ==> codes[..n][i] == codes[i] && calls[..n][i] == calls[i];
      assert codes == codes[..n] + [codes[n]];
      if calls[n] == Reachable then prev + [codes[n]] else prev
  }

  /** One more call adds its code to the answered ones exactly when it was answered. */
  lemma AnsweredStep(codes: seq<string>, calls: seq<DbStatus>, i: nat)
    requires |calls| == |codes| && i < |codes|
    ensures calls[i] == Reachable ==>
              Answered(codes[..i + 1], calls[..i + 1]) == Answered(codes[..i], calls[..i]) + [codes[i]]
    ensures calls[i] != Reachable ==>
              Answered(codes[..i + 1], calls[..i + 1]) == Answered(codes[..i], calls[..i])
  {
    assert codes[..i + 1][..i] == codes[..i];
    assert calls[..i + 1][..i] == calls[..i];
  }

  /** Seeding one more code inserts it after the others. */
  lemma AddMissingSnoc(rows: CodeRows, codes: seq<string>, c: string)
    ensures AddMissing(rows, codes + [c]) == InsertCode(AddMissing(rows, codes), c)
  {
    assert (codes + [c])[..|codes|] == codes;
  }

  /** One more call of the seeding loop keeps the table equal to seeding the
      answered codes so far. */
  lemma SeedStep(start: CodeRows, rows: CodeRows, codes: seq<string>, calls: seq<DbStatus>, i: nat)
    requires |calls| == |codes| && i < |codes|
    requires rows == AddMissing(start, Answered(codes[..i], calls[..i]))
    ensures calls[i] == Reachable ==>
              InsertCode(rows, codes[i]) == AddMissing(start, Answered(codes[..i + 1], calls[..i + 1]))
    ensures calls[i] != Reachable ==> rows == AddMissing(start, Answered(codes[..i + 1], calls[..i + 1]))
  {
    var done := Answered(codes[..i], calls[..i]);
    AnsweredStep(codes, calls, i);
    if calls[i] == Reachable {
      AddMissingSnoc(start, done, codes[i]);
    }
  }

  /** Seeding twice changes nothing. */
  lemma {:induction false} AddMissingIdempotent(rows: CodeRows, codes: seq<string>)
    ensures AddMissing(AddMissing(rows, codes), codes) == AddMissing(rows, codes)
  {
    var once := AddMissing(rows, codes);
    var twice := AddMissing(once, codes);
    assert forall c :: c in twice <==> c in once;
    assert forall c :: c in once ==> twice[c] == once[c];
  }

  /** The result of checking a code: accepted or not, and the table after. */
  datatype Outcome = Outcome(ok: bool, rows: CodeRows)

  /** `validateAdminCode` of the database helper: an unused row is marked
      used and accepted; anything else (no row, a used row, an unreachable
      database) is refused and leaves the table alone. */
  function Consume(rows: CodeRows, code: string, db: DbStatus): (r: Outcome)
    ensures r.ok <==> db == Reachable && code in rows && !rows[code]
    ensures r.rows.Keys == rows.Keys
    ensures forall c :: c in rows && c != code ==> r.rows[c] == rows[c]
    ensures code in r.rows ==> r.rows[code] == (r.ok || rows[code])
  {
    if db == Reachable && code in rows && !rows[code] then Outcome(true, rows[code := true])
    else Outcome(false, rows)
  }

  /** A code the helper accepted is refused the second time. */
  lemma ConsumeOnce(rows: CodeRows, code: string, db1: DbStatus, db2: DbStatus)
    requires Consume(rows, code, db1).ok
    ensures !Consume(Consume(rows, code, db1).rows, code, db2).ok
  {
  }

  /** `validateAdminCode` of the registration server: the table is tried
      first (and an unused row marked used); failing that, the default codes
      are accepted. */
  function ServerValidate(rows: CodeRows, code: string, db: DbStatus): (r: Outcome)
    ensures r.ok <==> (db == Reachable && code in rows && !rows[code]) || code in DefaultCodes
    ensures r.rows == Consume(rows, code, db).rows
  {
    var tried := Consume(rows, code, db);
    if tried.ok then tried else Outcome(code in DefaultCodes, rows)
  }

  /** For requests handled one after another, a code outside the defaults lets
      one admin register at most. */
  lemma NonDefaultCodeSingleUse(rows: CodeRows, code: string, db1: DbStatus, db2: DbStatus)
    requires code !in DefaultCodes
    requires ServerValidate(rows, code, db1).ok
    ensures !ServerValidate(ServerValidate(rows, code, db1).rows, code, db2).ok
  {
    ConsumeOnce(rows, code, db1, db2);
  }

  /** A default code never expires on the server: a used row only sends the
      check on to the fallback list, which accepts it. */
  lemma DefaultCodesNeverExpire(rows: CodeRows, code: string, db: DbStatus)
    requires code in DefaultCodes
    ensures ServerValidate(rows, code, db).ok
    ensures code in rows && rows[code] ==> ServerValidate(rows, code, db).rows == rows
  {
  }

  /** The lookup behind `verify-admin-code`: the same answer the
      registration check would give, without marking anything used. */
  function CodeIsValid(rows: CodeRows, code: string, db: DbStatus): (r: bool)
    ensures r == ServerValidate(rows, code, db).ok
  {
    (db == Reachable && code in rows && !rows[code]) || code in DefaultCodes
  }

  class CodeTable {
    var rows: CodeRows

    constructor ()
      ensures rows == map[]
    {
      rows := map[];
    }

    /** `insertDefaultAdminCodes`: each default code is inserted in turn, in a
        call of its own; a duplicate or a failing call is skipped. `calls[i]`
        says whether the database answered the call for the `i`-th code. */
    method InsertDefaultAdminCodes(calls: seq<DbStatus>)
      requires |calls| == |DefaultCodes|
      modifies this
      ensures rows == AddMissing(old(rows), Answered(DefaultCodes, calls))
      ensures (forall i :: 0 <= i < |calls| ==> calls[i] == Reachable) ==>
                rows == AddMissing(old(rows), DefaultCodes)
      ensures (forall i :: 0 <= i < |calls| ==> calls[i] == Unreachable) ==> rows == old(rows)
    {
      ghost var start := rows;
      assert DefaultCodes[..0] == [] && calls[..0] == [];
      for i := 0 to |DefaultCodes|
        invariant rows == AddMissing(start, Answered(DefaultCodes[..i], calls[..i]))
      {
        SeedStep(start, rows, DefaultCodes, calls, i);
        if calls[i] == Reachable {
          rows := InsertCode(rows, DefaultCodes[i]);
        }
      }
      assert DefaultCodes[..|DefaultCodes|] == DefaultCodes;
      assert calls[..|calls|] == calls;
    }

    /** The database helper's `validateAdminCode`. */
    method ConsumeCode(code: string, db: DbStatus) returns (ok: bool)
      modifies this
      ensures Outcome(ok, rows) == Consume(old(rows), code, db)
    {
      if db == Reachable && code in rows && !rows[code] {
        rows := rows[code := true];
        return true;
      }
      return false;
    }

    /** The registration server's `validateAdminCode`. */
    method ValidateWithFallback(code: string, db: DbStatus) returns (ok: bool)
      modifies this
      ensures Outcome(ok, rows) == ServerValidate(old(rows), code, db)
    {
      ok := ConsumeCode(code, db);
      if !ok {
        ok := code in DefaultCodes;
      }
    }
  }
}
