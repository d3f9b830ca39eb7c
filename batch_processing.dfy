/**
 * `1-batch_processing.py`: reading the `user_data` table page by page with
 * `LIMIT`/`OFFSET`, and printing the users older than 25.
 *
 * The table is a fixed sequence of rows, in the order the database returns
 * them; `paginate_users` is the window of that sequence its query selects.
 */
module BatchProcessing {

  /** A row of `user_data`; `age` is a `DECIMAL` column with no fractional digits. */
  datatype User = User(userId: string, name: string, email: string, age: int)

  function Min(a: int, b: int): int {
    if a <= b then a else b
  }

  /**
   * `paginate_users(batch_size, offset)`, i.e.
   * `SELECT * FROM user_data LIMIT batch_size OFFSET offset`: the rows from
   * position `offset` on, at most `batchSize` of them.
   */
  function PaginateUsers(table: seq<User>, batchSize: nat, offset: nat): (batch: seq<User>)
    ensures |batch| == if offset < |table| then Min(batchSize, |table| - offset) else 0
  {
    if offset >= |table| then [] else table[offset .. Min(offset + batchSize, |table|)]
  }

  /** The page holds the rows from position `offset` on, in table order. */
  lemma PageRows(table: seq<User>, batchSize: nat, offset: nat, i: nat)
    requires i < |PaginateUsers(table, batchSize, offset)|
    ensures offset + i < |table| && PaginateUsers(table, batchSize, offset)[i] == table[offset + i]
  {
  }

  /** The batches laid end to end. */
  function Concat(batches: seq<seq<User>>): seq<User> {
    if batches == [] then [] else Concat(batches[..|batches| - 1]) + batches[|batches| - 1]
  }

  /** Appending one batch appends its rows. */
  lemma ConcatSnoc(batches: seq<seq<User>>, batch: seq<User>)
    ensures Concat(batches + [batch]) == Concat(batches) + batch
  {
    assert (batches + [batch])[..|batches|] == batches;
  }

  /**
   * The generator `stream_users_in_batches(batch_size)`, run to the end: the
   * batches it yields, in order, and (ghost) the offsets it queried. It asks
   * for offsets 0, b, 2b, ... and stops at the first empty page, which it
   * does not yield. For a positive batch size the batches are the whole
   * table, in order; a batch size of 0 yields nothing.
   */
  method StreamUsersInBatches(table: seq<User>, batchSize: nat)
    returns (batches: seq<seq<User>>, ghost offsets: seq<nat>)
    ensures forall i :: 0 <= i < |batches| ==> 0 < |batches[i]| <= batchSize
    ensures batchSize > 0 ==> Concat(batches) == table
    ensures batchSize == 0 ==> batches == []
    ensures |offsets| == |batches| + 1
    ensures forall i :: 0 <= i < |offsets| ==> offsets[i] == i * batchSize
    ensures forall i :: 0 <= i < |batches| ==> batches[i] == PaginateUsers(table, batchSize, offsets[i])
    ensures PaginateUsers(table, batchSize, offsets[|batches|]) == []
  {
    batches, offsets := [], [];
    var offset: nat := 0;
    while true
      invariant offset == |batches| * batchSize
      invariant |offsets| == |batches|
      invariant forall i :: 0 <= i < |offsets| ==> offsets[i] == i * batchSize
      invariant forall i :: 0 <= i < |batches| ==> batches[i] == PaginateUsers(table, batchSize, offsets[i])
      invariant forall i :: 0 <= i < |batches| ==> 0 < |batches[i]| <= batchSize
      invariant batchSize == 0 ==> batches == []
      invariant offset <= |table| ==> Concat(batches) == table[..offset]
      invariant offset > |table| ==> Concat(batches) == table
      decreases |table| - offset
    {
      var batch := PaginateUsers(table, batchSize, offset);
      OffsetsSnoc(offsets, batchSize);
      offsets := offsets + [offset];
      if batch == [] {
        break;
      }
      NextPage(table, batchSize, offset, batches, batch);
      batches := batches + [batch];
      offset := offset + batchSize;
    }
  }

  /** The next offset queried is the next multiple of the batch size. */
  lemma OffsetsSnoc(offsets: seq<nat>, batchSize: nat)
    requires forall i :: 0 <= i < |offsets| ==> offsets[i] == i * batchSize
    ensures forall i :: 0 <= i <= |offsets| ==> (offsets + [|offsets| * batchSize])[i] == i * batchSize
  {
  }

  /** One more non-empty page extends the rows read so far. */
  lemma NextPage(table: seq<User>, batchSize: nat, offset: nat, batches: seq<seq<User>>, batch: seq<User>)
    requires offset <= |table| && Concat(batches) == table[..offset]
    requires batch == PaginateUsers(table, batchSize, offset) && batch != []
    requires offset == |batches| * batchSize
    ensures offset + batchSize == |batches + [batch]| * batchSize
    ensures offset + batchSize <= |table| ==> Concat(batches + [batch]) == table[..offset + batchSize]
    ensures offset + batchSize > |table| ==> Concat(batches + [batch]) == table
  {
    ConcatSnoc(batches, batch);
    var end := Min(offset + batchSize, |table|);
    assert table[..end] == table[..offset] + batch;
    assert end == |table| ==> table[..end] == table;
    assert |batches + [batch]| * batchSize == |batches| * batchSize + batchSize;
  }

  /** The users `batch_processing` prints from the rows `users`: those older than 25, in order. */
  function Over25(users: seq<User>): (printed: seq<User>)
    ensures |printed| <= |users|
  {
    if users == [] then []
    else
      var last := users[|users| - 1];
      Over25(users[..|users| - 1]) + (if last.age > 25 then [last] else [])
  }

  /** Every printed user is older than 25. */
  lemma {:induction false} Over25AreOlder(users: seq<User>)
    ensures forall i :: 0 <= i < |Over25(users)| ==> Over25(users)[i].age > 25
    decreases |users|
  {
    if users != [] {
      Over25AreOlder(users[..|users| - 1]);
    }
  }

  /**
   * `batch_processing(batch_size)`: every user of every batch of the stream
   * whose age is over 25, in stream order. For a positive batch size that is
   * every such user of the table.
   */
  method BatchProcessing(table: seq<User>, batchSize: nat) returns (printed: seq<User>)
    ensures batchSize > 0 ==> printed == Over25(table)
    ensures batchSize == 0 ==> printed == []
  {
    var batches;
    ghost var offsets;
    batches, offsets := StreamUsersInBatches(table, batchSize);
    printed := PrintOlderUsers(batches);
  }

  /** The two nested loops of `batch_processing` over the batches the stream yielded. */
  method PrintOlderUsers(batches: seq<seq<User>>) returns (printed: seq<User>)
    ensures printed == Over25(Concat(batches))
  {
    printed := [];
    for i := 0 to |batches|
      invariant printed == Over25(Concat(batches[..i]))
    {
      var batch := batches[i];
      ghost var done := Concat(batches[..i]);
      assert done + batch[..0] == done;
      for j := 0 to |batch|
        invariant printed == Over25(done + batch[..j])
      {
        var user := batch[j];
        Over25Step(done, batch, j);
        if user.age > 25 {
          printed := printed + [user];
        }
      }
      ConcatPrefix(batches, i);
      assert batch[..|batch|] == batch;
    }
    assert batches[..|batches|] == batches;
  }

  /** One more row of the current batch. */
  lemma Over25Step(done: seq<User>, batch: seq<User>, j: nat)
    requires j < |batch|
    ensures Over25(done + batch[..j + 1]) ==
            Over25(done + batch[..j]) + (if batch[j].age > 25 then [batch[j]] else [])
  {
    assert done + batch[..j + 1] == (done + batch[..j]) + [batch[j]];
    Over25Snoc(done + batch[..j], batch[j]);
  }

  /** The rows of the first `i + 1` batches. */
  lemma ConcatPrefix(batches: seq<seq<User>>, i: nat)
    requires i < |batches|
    ensures Concat(batches[..i + 1]) == Concat(batches[..i]) + batches[i]
  {
    assert batches[..i + 1][..i] == batches[..i];
  }

  /** One more row: it is printed after the others exactly when it is over 25. */
  lemma Over25Snoc(users: seq<User>, user: User)
    ensures Over25(users + [user]) == Over25(users) + (if user.age > 25 then [user] else [])
  {
    assert (users + [user])[..|users|] == users;
  }

  /** Filtering a concatenation filters each part: batching does not change what is printed. */
  lemma {:induction false} Over25Append(a: seq<User>, b: seq<User>)
    ensures Over25(a + b) == Over25(a) + Over25(b)
    decreases |b|
  {
    if b == [] {
      assert a + b == a;
      assert Over25(a) + Over25(b) == Over25(a) + [];
    } else {
      var init, last := b[..|b| - 1], b[|b| - 1];
      var kept := if last.age > 25 then [last] else [];
      Over25Append(a, init);
      assert b == init + [last];
      assert a + b == (a + init) + [last];
      Over25Snoc(a + init, last);
      Over25Snoc(init, last);
      calc {
        Over25(a + b);
        Over25(a + init) + kept;
        (Over25(a) + Over25(init)) + kept;
        Over25(a) + (Over25(init) + kept);
        Over25(a) + Over25(b);
      }
    }
  }

  /**
   * Exactly the users over 25 are printed, each as often as it occurs in the
   * rows: a user of 25 or younger never is.
   */
  lemma {:induction false} Over25Counts(users: seq<User>, u: User)
    ensures multiset(Over25(users))[u] == if u.age > 25 then multiset(users)[u] else 0
    decreases |users|
  {
    if users != [] {
      var init, last := users[..|users| - 1], users[|users| - 1];
      Over25Counts(init, u);
      assert users == init + [last];
      Over25Snoc(init, last);
    }
  }
}
