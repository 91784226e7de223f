/**
  The unread-counts endpoint (src/pages/api/unread-counts.ts): the caller's
  counter rows, turned into one object keyed by sender.
*/
module UnreadCounts {
  import opened Wrappers
  import opened JsStrings

  /** A row of the unread-count table. */
  datatype CountRow = CountRow(userId: string, fromUserId: string, count: int)

  datatype UnreadResponse =
    | Unauthorized                  // 401
    | Counts(counts: map<string, int>) // 200
    | ServerError                   // 500

  /** The `where: { userId }` query: the caller's rows, in table order. */
  function RowsOf(table: seq<CountRow>, userId: string): (rows: seq<CountRow>)
    ensures forall r :: r in rows <==> r in table && r.userId == userId
    decreases |table|
  {
    if table == [] then []
    else if table[0].userId == userId then [table[0]] + RowsOf(table[1..], userId)
    else RowsOf(table[1..], userId)
  }

  /** The object the loop builds from a prefix of the rows. */
  function CountsOf(rows: seq<CountRow>): map<string, int>
    decreases |rows|
  {
    if rows == [] then map[]
    else CountsOf(rows[..|rows| - 1])[rows[|rows| - 1].fromUserId := rows[|rows| - 1].count]
  }

  /** The keys are exactly the senders that occur in the rows. */
  lemma {:induction false} CountsKeys(rows: seq<CountRow>)
    ensures CountsOf(rows).Keys == set i | 0 <= i < |rows| :: rows[i].fromUserId
    decreases |rows|
  {
    if rows != [] {
      var n := |rows| - 1;
      CountsKeys(rows[..n]);
      assert (set i | 0 <= i < |rows| :: rows[i].fromUserId)
          == (set i | 0 <= i < n :: rows[..n][i].fromUserId) + {rows[n].fromUserId};
    }
  }

  /** A sender's value is the count of the last row from that sender. */
  lemma {:induction false} CountsLastRowWins(rows: seq<CountRow>, k: nat)
    requires k < |rows|
    requires forall j :: k < j < |rows| ==> rows[j].fromUserId != rows[k].fromUserId
    ensures rows[k].fromUserId in CountsOf(rows) && CountsOf(rows)[rows[k].fromUserId] == rows[k].count
    decreases |rows|
  {
    var n := |rows| - 1;
    if k < n {
      CountsLastRowWins(rows[..n], k);
    }
  }

  /** The `for...of` loop: `result[fromUserId] = count` for each row in turn. */
  method CountsObject(rows: seq<CountRow>) returns (result: map<string, int>)
    ensures result == CountsOf(rows)
  {
    result := map[];
    for i := 0 to |rows|
      invariant result == CountsOf(rows[..i])
    {
      assert rows[..i + 1][..i] == rows[..i];
      result := result[rows[i].fromUserId := rows[i].count];
    }
    assert rows[..|rows|] == rows;
  }

  /**
    The handler. `auth` is the caller's id from the session; `queryOk` is
    false when the store or the session lookup fails.
  */
  method GetUnreadCounts(auth: Option<string>, table: seq<CountRow>, queryOk: bool) returns (r: UnreadResponse)
    ensures !Truthy(auth) ==> r == Unauthorized
    ensures Truthy(auth) && !queryOk ==> r == ServerError
    ensures Truthy(auth) && queryOk ==> r == Counts(CountsOf(RowsOf(table, auth.value)))
  {
    if !Truthy(auth) {
      return Unauthorized;
    }
    if !queryOk {
      return ServerError;
    }
    var counts := RowsOf(table, auth.value);
    var result := CountsObject(counts);
    r := Counts(result);
  }

  /** Every key of the answer is a sender of one of the caller's rows, and every such sender is a key. */
  lemma AnswerKeysAreSenders(table: seq<CountRow>, userId: string)
    ensures forall s :: s in CountsOf(RowsOf(table, userId)) <==>
                        exists r :: r in table && r.userId == userId && r.fromUserId == s
  {
    var rows := RowsOf(table, userId);
    CountsKeys(rows);
    forall s | exists r :: r in table && r.userId == userId && r.fromUserId == s
      ensures s in CountsOf(rows)
    {
      var r :| r in table && r.userId == userId && r.fromUserId == s;
      var i :| 0 <= i < |rows| && rows[i] == r;
    }
  }
}
