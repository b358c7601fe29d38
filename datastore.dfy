/**
 * The generic datastore access layer. The store connection is a `Store` object whose
 * `rows` map each primary key to its record. Whether the driver fails on a given call
 * is outside the model's control: every operation takes that outcome as a `fault`
 * parameter (None for success, Some(message) for the driver's error text).
 */
module Datastore {
  import opened Wrappers
  import opened Herr

  /** An identifiable entity: its primary key (GetID) and the rest of its fields. */
  datatype Record<A> = Record(id: int, attrs: A)

  /** A `where` condition together with its arguments. */
  type Filter<!A> = Record<A> -> bool

  const RecordNotFoundText: string := "record not found"
  const NotFoundInDatastoreText: string := "The requested resource was not found in the datastore."

  function DatabaseError(detail: string): Error
  {
    Error("database-error", "", "500", "", "Database Error", detail, ErrorSource("", ""))
  }

  function NotFoundError(detail: string): Error
  {
    Error("not-found", "", "404", "", "Not Found", detail, ErrorSource("", ""))
  }

  /** A record is new when its primary key is blank, i.e. 0. */
  predicate IsNewRecord<A>(rec: Record<A>) { rec.id == 0 }

  /** The filter is applied only when one is given. */
  predicate Selects<A>(where: Option<Filter<A>>, rec: Record<A>)
  {
    where.None? || where.value(rec)
  }

  function ClampedStart(len: nat, offset: int): (k: nat)
    ensures k <= len
  {
    if offset < 0 then 0 else if offset > len then len else offset
  }

  /**
   * LIMIT limit OFFSET offset over an ordered result; a negative limit or offset is
   * not applied.
   */
  function Page<T>(s: seq<T>, limit: int, offset: int): (r: seq<T>)
    ensures limit >= 0 ==> |r| <= limit
    ensures ClampedStart(|s|, offset) + |r| <= |s|
    ensures offset >= |s| ==> r == []
    ensures forall i :: 0 <= i < |r| ==> r[i] == s[ClampedStart(|s|, offset) + i]
    ensures limit < 0 || ClampedStart(|s|, offset) + limit >= |s| ==> |r| == |s| - ClampedStart(|s|, offset)
    ensures limit >= 0 && ClampedStart(|s|, offset) + limit < |s| ==> |r| == limit
  {
    var start := ClampedStart(|s|, offset);
    var end := if limit < 0 || start + limit > |s| then |s| else start + limit;
    s[start..end]
  }

  /** Two consecutive pages of sizes n and m make up the page of size n + m. */
  lemma {:induction false} PageSplit<T>(s: seq<T>, n: nat, m: nat, offset: nat)
    ensures Page(s, n, offset) + Page(s, m, offset + n) == Page(s, n + m, offset)
  {
    var a, b, c := Page(s, n, offset), Page(s, m, offset + n), Page(s, n + m, offset);
    assert |a| + |b| == |c|;
    forall i | 0 <= i < |c| ensures (a + b)[i] == c[i] {
      if i >= |a| {
        assert ClampedStart(|s|, offset + n) == ClampedStart(|s|, offset) + |a|;
      }
    }
  }

  class Store<A> {
    /** The rows of the table, by primary key. */
    var rows: map<int, Record<A>>
    /** The auto-increment counter: the last primary key handed out. */
    var lastId: nat

    ghost predicate Valid()
      reads this
    {
      forall k :: k in rows ==> rows[k].id == k && 0 < k <= lastId
    }

    constructor ()
      ensures Valid() && rows == map[] && lastId == 0
    {
      rows := map[];
      lastId := 0;
    }

    /** Primary keys of the rows the filter selects. */
    function Matching(where: Option<Filter<A>>): (ks: set<int>)
      reads this
      ensures forall k :: k in ks <==> k in rows && Selects(where, rows[k])
    {
      set k | k in rows && Selects(where, rows[k])
    }

    /** Selected rows with primary key in 1..n, in ascending key order. */
    function ListUpTo(where: Option<Filter<A>>, n: nat): (s: seq<Record<A>>)
      reads this
      requires Valid()
      ensures forall i :: 0 <= i < |s| ==> 0 < s[i].id <= n && s[i].id in rows && rows[s[i].id] == s[i] && Selects(where, s[i])
      ensures forall i, j :: 0 <= i < j < |s| ==> s[i].id < s[j].id
      ensures forall k :: 0 < k <= n && k in Matching(where) ==> rows[k] in s
    {
      if n == 0 then []
      else ListUpTo(where, n - 1) + (if n in rows && Selects(where, rows[n]) then [rows[n]] else [])
    }

    /** All selected rows in ascending key order (the store's default order). */
    function Listing(where: Option<Filter<A>>): (s: seq<Record<A>>)
      reads this
      requires Valid()
      ensures forall i :: 0 <= i < |s| ==> s[i].id in Matching(where) && rows[s[i].id] == s[i]
      ensures forall i, j :: 0 <= i < j < |s| ==> s[i].id < s[j].id
      ensures forall k :: k in Matching(where) ==> rows[k] in s
    {
      ListUpTo(where, lastId)
    }

    /** CountEntities: the number of rows the optional filter selects, or database-error. */
    method CountEntities(where: Option<Filter<A>>, fault: Option<string>) returns (r: Result<nat, Error>)
      requires Valid()
      ensures fault.Some? ==> r == Failure(DatabaseError(fault.value))
      ensures fault.None? ==> r == Success(|Matching(where)|)
    {
      if fault.Some? {
        return Failure(DatabaseError(fault.value));
      }
      r := Success(|Matching(where)|);
    }

    /** FetchEntities: every selected row, or database-error. */
    method FetchEntities(where: Option<Filter<A>>, fault: Option<string>) returns (r: Result<seq<Record<A>>, Error>)
      requires Valid()
      ensures fault.Some? ==> r == Failure(DatabaseError(fault.value))
      ensures fault.None? ==> r.Success? && r.value == Listing(where)
    {
      if fault.Some? {
        return Failure(DatabaseError(fault.value));
      }
      r := Success(Listing(where));
    }

    /** FetchPagedEntities: at most `limit` selected rows starting at `offset`, or database-error. */
    method FetchPagedEntities(limit: int, offset: int, where: Option<Filter<A>>, fault: Option<string>)
      returns (r: Result<seq<Record<A>>, Error>)
      requires Valid()
      ensures fault.Some? ==> r == Failure(DatabaseError(fault.value))
      ensures fault.None? ==> r.Success? && r.value == Page(Listing(where), limit, offset)
      ensures r.Success? && limit >= 0 ==> |r.value| <= limit
    {
      if fault.Some? {
        return Failure(DatabaseError(fault.value));
      }
      r := Success(Page(Listing(where), limit, offset));
    }

    /**
     * FetchEntity: the row with primary key id; not-found exactly when the driver
     * reports no such row, database-error for any other driver failure.
     */
    method FetchEntity(id: int, fault: Option<string>) returns (r: Result<Record<A>, Error>)
      requires Valid()
      ensures fault.Some? ==> r == Failure(DatabaseError(fault.value))
      ensures fault.None? && id !in rows ==> r == Failure(NotFoundError(RecordNotFoundText))
      ensures fault.None? && id in rows ==> r == Success(rows[id]) && r.value.id == id
      ensures (r.Failure? && r.error.id == "not-found") <==> fault.None? && id !in rows
    {
      if fault.None? && id !in rows {
        return Failure(NotFoundError(RecordNotFoundText));
      } else if fault.Some? {
        return Failure(DatabaseError(fault.value));
      }
      r := Success(rows[id]);
    }

    /**
     * StoreEntity: refuses a record that already carries a primary key with the
     * duplicate-entry error; otherwise inserts it under a fresh auto-increment key,
     * which is written back into the returned record.
     */
    method StoreEntity(rec: Record<A>, fault: Option<string>) returns (stored: Record<A>, err: Option<Error>)
      requires Valid()
      modifies this
      ensures Valid()
      ensures err == Some(DuplicateEntryError) <==> !IsNewRecord(rec)
      ensures !IsNewRecord(rec) || fault.Some? ==> stored == rec && rows == old(rows) && lastId == old(lastId)
      ensures IsNewRecord(rec) && fault.Some? ==> err == Some(DatabaseError(fault.value))
      ensures IsNewRecord(rec) && fault.None? ==>
        && err == None
        && stored.attrs == rec.attrs && stored.id > 0 && stored.id !in old(rows)
        && rows == old(rows)[stored.id := stored]
        && stored.id == lastId == old(lastId) + 1
    {
      if !IsNewRecord(rec) {
        return rec, Some(DuplicateEntryError);
      }
      if fault.Some? {
        return rec, Some(DatabaseError(fault.value));
      }
      lastId := lastId + 1;
      stored := rec.(id := lastId);
      rows := rows[lastId := stored];
      err := None;
    }

    /**
     * UpdateEntity: writes the record over the row with the same primary key. There is
     * no existence check: an unknown key changes nothing and still succeeds.
     */
    method UpdateEntity(rec: Record<A>, fault: Option<string>) returns (err: Option<Error>)
      requires Valid()
      modifies this
      ensures Valid() && lastId == old(lastId)
      ensures err == None || (fault.Some? && err == Some(DatabaseError(fault.value)))
      ensures fault.Some? ==> err == Some(DatabaseError(fault.value)) && rows == old(rows)
      ensures fault.None? ==>
        err == None && rows == (if rec.id in old(rows) then old(rows)[rec.id := rec] else old(rows))
    {
      if fault.Some? {
        return Some(DatabaseError(fault.value));
      }
      if rec.id in rows {
        rows := rows[rec.id := rec];
      }
      err := None;
    }

    /**
     * DeleteEntity: counts the rows with the record's primary key first; no such row
     * is not-found and nothing is deleted; otherwise deletes exactly that row.
     */
    method DeleteEntity(id: int, countFault: Option<string>, deleteFault: Option<string>) returns (err: Option<Error>)
      requires Valid()
      modifies this
      ensures Valid() && lastId == old(lastId)
      ensures countFault.Some? ==> err == Some(DatabaseError(countFault.value)) && rows == old(rows)
      ensures countFault.None? && id !in old(rows) ==>
        err == Some(NotFoundError(NotFoundInDatastoreText)) && rows == old(rows)
      ensures countFault.None? && id in old(rows) && deleteFault.Some? ==>
        err == Some(DatabaseError(deleteFault.value)) && rows == old(rows)
      ensures countFault.None? && id in old(rows) && deleteFault.None? ==>
        err == None && rows == old(rows) - {id}
    {
      var count := CountEntities(Some((rec: Record<A>) => rec.id == id), countFault);
      if count.Failure? {
        return Some(count.error);
      }
      ghost var selected := Matching(Some((rec: Record<A>) => rec.id == id));
      forall k ensures k in selected <==> k == id && id in rows {
        if k in rows {
          assert rows[k].id == k;
        }
      }
      assert selected == if id in rows then {id} else {};
      if count.value == 0 {
        return Some(NotFoundError(NotFoundInDatastoreText));
      }
      if deleteFault.Some? {
        return Some(DatabaseError(deleteFault.value));
      }
      rows := rows - {id};
      err := None;
    }
  }

  /** The elements of a sequence of keys, as a set. */
  function KeySet(xs: seq<int>): (ks: set<int>)
    ensures forall k :: k in ks <==> k in xs
  {
    if xs == [] then {} else {xs[0]} + KeySet(xs[1..])
  }

  /** Keys in strictly increasing order. */
  predicate Increasing(xs: seq<int>)
  {
    forall i, j :: 0 <= i < j < |xs| ==> xs[i] < xs[j]
  }

  /** The tail of an increasing sequence is increasing and does not contain its head. */
  lemma IncreasingTail(xs: seq<int>)
    requires xs != [] && Increasing(xs)
    ensures Increasing(xs[1..]) && xs[0] !in xs[1..]
  {
    forall i, j | 0 <= i < j < |xs[1..]| ensures xs[1..][i] < xs[1..][j] {
      assert xs[1..][i] == xs[i + 1] && xs[1..][j] == xs[j + 1];
    }
    forall k | k in xs[1..] ensures xs[0] < k {
      var m :| 0 <= m < |xs[1..]| && xs[1..][m] == k;
      assert xs[m + 1] == k;
    }
  }

  /** Strictly increasing keys are distinct, so there are as many keys as elements. */
  lemma {:induction false} IncreasingKeySetSize(xs: seq<int>)
    requires Increasing(xs)
    ensures |KeySet(xs)| == |xs|
  {
    if xs != [] {
      IncreasingTail(xs);
      IncreasingKeySetSize(xs[1..]);
    }
  }

  /** A strictly increasing enumeration of a set of keys has as many elements as the set. */
  lemma EnumerationSize(xs: seq<int>, keys: set<int>)
    requires Increasing(xs)
    requires forall i :: 0 <= i < |xs| ==> xs[i] in keys
    requires forall k :: k in keys ==> k in xs
    ensures |xs| == |keys|
  {
    IncreasingKeySetSize(xs);
    forall k | k in KeySet(xs) ensures k in keys {
      var i :| 0 <= i < |xs| && xs[i] == k;
    }
    forall k | k in keys ensures k in KeySet(xs) {
      assert k in xs;
    }
    assert KeySet(xs) == keys;
  }

  /**
   * Counting and listing agree: the number CountEntities reports for a filter (the
   * total Paginate checks offsets against) is the length of the list FetchEntities returns.
   */
  lemma CountMatchesListing<A>(st: Store<A>, where: Option<Filter<A>>)
    requires st.Valid()
    ensures |st.Listing(where)| == |st.Matching(where)|
  {
    var rs := st.Listing(where);
    var ids := seq(|rs|, i requires 0 <= i < |rs| => rs[i].id);
    forall k | k in st.Matching(where) ensures k in ids {
      var i :| 0 <= i < |rs| && rs[i] == st.rows[k];
      assert ids[i] == k;
    }
    EnumerationSize(ids, st.Matching(where));
  }





  /**
   * On a fresh store: create a record, re-post what came back (now with an id),
   * view it, delete it, and delete it again.
   */
  method CreateViewDeleteScenario<A>(attrs: A)
    returns (created: Record<A>, storeErr: Option<Error>, repostErr: Option<Error>,
             viewed: Result<Record<A>, Error>, firstDelete: Option<Error>, secondDelete: Option<Error>)
    ensures storeErr == None && created == Record(1, attrs)
    ensures repostErr == Some(DuplicateEntryError)
    ensures viewed == Success(created)
    ensures firstDelete == None
    ensures secondDelete == Some(NotFoundError(NotFoundInDatastoreText))
  {
    var store := new Store<A>();
    created, storeErr := store.StoreEntity(Record(0, attrs), None);
    var _, e := store.StoreEntity(created, None);
    repostErr := e;
    viewed := store.FetchEntity(created.id, None);
    firstDelete := store.DeleteEntity(created.id, None, None);
    secondDelete := store.DeleteEntity(created.id, None, None);
  }
}
