/** The feature store: a lazily opened engine connection and read-only
    queries over the two feature files (users, items), either of which may
    be missing. */
module FeatureStore {
  import opened Common
  import opened ItemFeatures
  import opened UserFeatures

  /** Which feature file a failed read was looking for. */
  datatype FeatureFile = UserFile | ItemFile

  datatype StoreError =
    | FileNotFound(file: FeatureFile)  // the explicit existence check
    | ReadFailed(file: FeatureFile)    // the engine's own error reading a missing file

  /** An open engine connection; `serial` tells connections apart. */
  datatype Handle = Handle(serial: nat)

  datatype UserStats = UserStats(total: nat)
  datatype ItemStats = ItemStats(total: nat, maxSales: Option<int>)
  datatype FeatureStats = FeatureStats(users: Option<UserStats>, items: Option<ItemStats>)

  /** `round(AVG(...), 2)` over a file with no rows: `AVG` is NULL and
      `round(None, 2)` raises `TypeError`. */
  datatype StatsError = NullAverage(file: FeatureFile)

  /** The ids an `IN ('…')` list built by joining `ids` with `', '` admits:
      the empty list still yields `IN ('')`, which admits the empty id. */
  function InList(ids: seq<string>): (s: set<string>)
    ensures ids != [] ==> forall x :: x in s <==> x in ids
    ensures ids == [] ==> s == {""}
  {
    if ids == [] then {""} else ToSet(ids)
  }

  /** `SELECT * … [WHERE customer_id IN (…)]` over the user file's rows. */
  function SelectUsers(rows: seq<UserRow>, ids: Option<seq<CustomerId>>): (r: seq<UserRow>)
    ensures ids.None? ==> r == rows
    ensures ids.Some? ==> forall u :: u in r <==> u in rows && u.customer in InList(ids.value)
    ensures |r| <= |rows|
  {
    match ids
    case None => rows
    case Some(xs) => Filter(rows, (u: UserRow) => u.customer in InList(xs))
  }

  /** `SELECT * … [WHERE article_id IN (…)]` over the item file's rows. */
  function SelectItems(rows: seq<ItemRow>, ids: Option<seq<ArticleId>>): (r: seq<ItemRow>)
    ensures ids.None? ==> r == rows
    ensures ids.Some? ==> forall x :: x in r <==> x in rows && x.article in InList(ids.value)
    ensures |r| <= |rows|
  {
    match ids
    case None => rows
    case Some(xs) => Filter(rows, (x: ItemRow) => x.article in InList(xs))
  }

  /** `get_user_features`: a missing file fails before any query runs. */
  function UserQuery(file: Option<seq<UserRow>>, ids: Option<seq<CustomerId>>): (r: Result<seq<UserRow>, StoreError>)
    ensures r.Err? <==> file.None?
    ensures r.Err? ==> r.error == FileNotFound(UserFile)
    ensures r.Ok? ==> r.value == SelectUsers(file.value, ids)
  {
    if file.None? then Err(FileNotFound(UserFile)) else Ok(SelectUsers(file.value, ids))
  }

  /** `get_item_features`: a missing file fails before any query runs. */
  function ItemQuery(file: Option<seq<ItemRow>>, ids: Option<seq<ArticleId>>): (r: Result<seq<ItemRow>, StoreError>)
    ensures r.Err? <==> file.None?
    ensures r.Err? ==> r.error == FileNotFound(ItemFile)
    ensures r.Ok? ==> r.value == SelectItems(file.value, ids)
  {
    if file.None? then Err(FileNotFound(ItemFile)) else Ok(SelectItems(file.value, ids))
  }

  function ByRank(): ItemRow -> int {
    (x: ItemRow) => x.popularityRank
  }

  /** `WHERE popularity_rank <= k ORDER BY popularity_rank`. */
  function TopItems(rows: seq<ItemRow>, k: int): (r: seq<ItemRow>)
    ensures forall x :: x in r <==> x in rows && x.popularityRank <= k
    ensures forall i, j :: 0 <= i < j < |r| ==> r[i].popularityRank <= r[j].popularityRank
    ensures forall x: ItemRow :: x.popularityRank <= k ==> multiset(r)[x] == multiset(rows)[x]
  {
    var sorted := SortBy(rows, ByRank());
    SortByMembership(rows, ByRank());
    var r := Filter(sorted, (x: ItemRow) => x.popularityRank <= k);
    FilterSorted(sorted, (x: ItemRow) => x.popularityRank <= k, ByRank());
    r
  }

  /** `get_top_items`: the query reads the item file with no existence check,
      so a missing file surfaces as the engine's read error. */
  function TopItemsQuery(file: Option<seq<ItemRow>>, k: int): (r: Result<seq<ItemRow>, StoreError>)
    ensures r.Err? <==> file.None?
    ensures r.Ok? ==> r.value == TopItems(file.value, k)
  {
    if file.None? then Err(ReadFailed(ItemFile)) else Ok(TopItems(file.value, k))
  }

  /** `MAX(sales_count)`, NULL on an empty table. */
  function MaxSales(rows: seq<ItemRow>): (m: Option<int>)
    ensures m.None? <==> rows == []
    ensures m.Some? ==> (forall x :: x in rows ==> x.salesCount <= m.value)
                        && (exists x :: x in rows && x.salesCount == m.value)
  {
    if rows == [] then None
    else
      var rest := MaxSales(rows[1..]);
      assert forall x :: x in rows ==> x == rows[0] || x in rows[1..];
      if rest.None? || rows[0].salesCount >= rest.value then Some(rows[0].salesCount) else rest
  }

  class FeatureStore {
    /** The cached connection (`self.con`). */
    var con: Option<Handle>
    /** How many connections this store has opened so far. */
    var openCount: nat
    /** The user and item feature files; `None` when the file does not exist. */
    const userFile: Option<seq<UserRow>>
    const itemFile: Option<seq<ItemRow>>

    constructor(userFile: Option<seq<UserRow>>, itemFile: Option<seq<ItemRow>>)
      ensures con == None && openCount == 0
      ensures this.userFile == userFile && this.itemFile == itemFile
    {
      this.userFile := userFile;
      this.itemFile := itemFile;
      con := None;
      openCount := 0;
    }

    /** Open a connection only when none is cached; otherwise return it. */
    method Connect() returns (h: Handle)
      modifies this
      ensures con == Some(h)
      ensures old(con).Some? ==> h == old(con).value && openCount == old(openCount)
      ensures old(con).None? ==> h == Handle(old(openCount)) && openCount == old(openCount) + 1
    {
      if con.None? {
        con := Some(Handle(openCount));
        openCount := openCount + 1;
      }
      h := con.value;
    }

    method GetUserFeatures(ids: Option<seq<CustomerId>>) returns (r: Result<seq<UserRow>, StoreError>)
      modifies this
      ensures con.Some? && (old(con).Some? ==> con == old(con))
      ensures r == UserQuery(userFile, ids)
    {
      var _ := Connect();
      if userFile.None? {
        return Err(FileNotFound(UserFile));
      }
      r := Ok(SelectUsers(userFile.value, ids));
    }

    method GetItemFeatures(ids: Option<seq<ArticleId>>) returns (r: Result<seq<ItemRow>, StoreError>)
      modifies this
      ensures con.Some? && (old(con).Some? ==> con == old(con))
      ensures r == ItemQuery(itemFile, ids)
    {
      var _ := Connect();
      if itemFile.None? {
        return Err(FileNotFound(ItemFile));
      }
      r := Ok(SelectItems(itemFile.value, ids));
    }

    method GetTopItems(k: int) returns (r: Result<seq<ItemRow>, StoreError>)
      modifies this
      ensures con.Some? && (old(con).Some? ==> con == old(con))
      ensures r == TopItemsQuery(itemFile, k)
    {
      var _ := Connect();
      r := TopItemsQuery(itemFile, k);
    }

    /** Fill the statistics entry by entry: an entry exists exactly when its
        file does. A file that exists but has no rows makes `AVG` NULL, and
        `round(None, 2)` raises; the user entry is filled, and so fails,
        first. The averages themselves are not modelled. */
    method GetFeatureStats() returns (r: Result<FeatureStats, StatsError>)
      modifies this
      ensures con.Some? && (old(con).Some? ==> con == old(con))
      ensures r.Err? <==> userFile == Some([]) || itemFile == Some([])
      ensures userFile == Some([]) ==> r == Err(NullAverage(UserFile))
      ensures userFile != Some([]) && itemFile == Some([]) ==> r == Err(NullAverage(ItemFile))
      ensures r.Ok? ==> (r.value.users.Some? <==> userFile.Some?)
      ensures r.Ok? ==> (r.value.items.Some? <==> itemFile.Some?)
      ensures r.Ok? && r.value.users.Some? ==> r.value.users.value.total == |userFile.value| > 0
      ensures r.Ok? && r.value.items.Some? ==>
                r.value.items.value == ItemStats(|itemFile.value|, MaxSales(itemFile.value)) &&
                r.value.items.value.maxSales.Some?
    {
      var _ := Connect();
      var stats := FeatureStats(None, None);
      if userFile.Some? {
        if userFile.value == [] {
          return Err(NullAverage(UserFile));
        }
        stats := stats.(users := Some(UserStats(|userFile.value|)));
      }
      if itemFile.Some? {
        if itemFile.value == [] {
          return Err(NullAverage(ItemFile));
        }
        stats := stats.(items := Some(ItemStats(|itemFile.value|, MaxSales(itemFile.value))));
      }
      r := Ok(stats);
    }

    /** Release the connection; closing an already closed store does nothing. */
    method Close()
      modifies this
      ensures con == None && openCount == old(openCount)
    {
      if con.Some? {
        con := None;
      }
    }
  }
}
