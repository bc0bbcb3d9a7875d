/** The users table (user_repo.go, migration 000002): a primary key, one email per tenant, and an
    UPDATE that writes some columns only. */
module Users {
  import opened Domain
  import opened Arithmetic
  import opened Paging

  type Table = map<Id, User>

  datatype DbResult = Applied | UniqueViolation | DbError

  ghost function ByEmail(users: Table, tenant: Tenant, email: string): set<Id> {
    set id | id in users && users[id].tenant == tenant && users[id].email == email
  }

  ghost function ByOAuth(users: Table, tenant: Tenant, provider: string, subject: string): set<Id> {
    set id | id in users && users[id].tenant == tenant && users[id].provider == provider && users[id].subject == subject
  }

  /** The row QueryRow reads when several match: a fixed but unspecified one of them. */
  ghost function Pick(ids: set<Id>): (r: Option<Id>)
    ensures r.None? <==> ids == {}
    ensures r.Some? ==> r.value in ids
  {
    if ids == {} then None else Some(var id :| id in ids; id)
  }

  ghost predicate Keyed(users: Table) {
    forall id :: id in users ==> users[id].id == id
  }

  /** The unique index on (tenant_id, email). */
  ghost predicate UniqueEmails(users: Table) {
    forall a, b ::
      a in users && b in users && users[a].tenant == users[b].tenant && users[a].email == users[b].email ==> a == b
  }

  predicate SameOAuth(u: User, v: User) {
    u.provider != "" && u.tenant == v.tenant && u.provider == v.provider && u.subject == v.subject
  }

  /** No index enforces this one. */
  ghost predicate UniqueOAuth(users: Table) {
    forall a, b | a in users && b in users && SameOAuth(users[a], users[b]) :: a == b
  }

  ghost function Insert(users: Table, u: User, out: Outcome): (Table, DbResult) {
    var clash := u.id in users || ByEmail(users, u.tenant, u.email) != {};
    (if out.Refused? || clash then users else users[u.id := u],
     if !out.Acked? then DbError else if clash then UniqueViolation else Applied)
  }

  /** The stored row after UPDATE: tenant, provider, subject and created_at are not written. */
  function Merge(row: User, u: User): User {
    row.(email := u.email, role := u.role, active := u.active, mfaEnabled := u.mfaEnabled,
         mfaSecret := u.mfaSecret, emailVerified := u.emailVerified, externalId := u.externalId,
         updatedAt := u.updatedAt, password := u.password)
  }

  /** Updating an absent id succeeds and changes nothing. */
  ghost function Update(users: Table, u: User, out: Outcome): (Table, DbResult) {
    var clash := u.id in users && ByEmail(users, users[u.id].tenant, u.email) - {u.id} != {};
    (if out.Refused? || clash || u.id !in users then users else users[u.id := Merge(users[u.id], u)],
     if !out.Acked? then DbError else if clash then UniqueViolation else Applied)
  }

  ghost function Delete(users: Table, id: Id, out: Outcome): Table {
    if out.Refused? then users else users - {id}
  }

  lemma InsertKeepsUnique(users: Table, u: User, out: Outcome)
    requires UniqueEmails(users)
    ensures UniqueEmails(Insert(users, u, out).0)
  {
    forall a | a in users && users[a].tenant == u.tenant && users[a].email == u.email
      ensures a in ByEmail(users, u.tenant, u.email)
    {
    }
  }

  lemma UpdateKeepsUnique(users: Table, u: User, out: Outcome)
    requires UniqueEmails(users)
    ensures UniqueEmails(Update(users, u, out).0)
  {
    if u.id in users {
      var others := ByEmail(users, users[u.id].tenant, u.email) - {u.id};
      forall a | a in users && a != u.id && users[a].tenant == users[u.id].tenant && users[a].email == u.email
        ensures a in others
      {
      }
    }
  }

  lemma InsertKeepsOAuth(users: Table, u: User, out: Outcome)
    requires UniqueOAuth(users) && (u.provider != "" ==> ByOAuth(users, u.tenant, u.provider, u.subject) == {})
    ensures UniqueOAuth(Insert(users, u, out).0)
  {
    forall a | a in users && SameOAuth(users[a], u)
      ensures a in ByOAuth(users, u.tenant, u.provider, u.subject)
    {
    }
  }

  lemma UpdateKeepsOAuth(users: Table, u: User, out: Outcome)
    requires UniqueOAuth(users)
    ensures UniqueOAuth(Update(users, u, out).0)
  {
    hide ByEmail;
    var after := Update(users, u, out).0;
    forall a, b | a in after && b in after && SameOAuth(after[a], after[b]) ensures a == b {
      assert SameOAuth(users[a], users[b]);
    }
  }

  /** Every row still has the identity it was inserted with. */
  ghost predicate BornAs(users: Table, born: map<Id, User>) {
    forall id :: id in users ==> id in born && SameIdentity(users[id], born[id])
  }

  lemma WrittenIds(users: Table, u: User, out: Outcome)
    ensures Insert(users, u, out).0.Keys <= users.Keys + {u.id}
    ensures Update(users, u, out).0.Keys == users.Keys
  {
  }

  /** What holds of the table whatever the interleaving. */
  ghost predicate Consistent(users: Table, born: map<Id, User>) {
    Keyed(users) && UniqueEmails(users) && BornAs(users, born)
  }

  lemma InsertConsistent(users: Table, born: map<Id, User>, u: User, out: Outcome)
    requires Consistent(users, born) && u.id !in born
    ensures Consistent(Insert(users, u, out).0, born[u.id := u])
  {
    InsertKeepsUnique(users, u, out);
  }

  lemma UpdateConsistent(users: Table, born: map<Id, User>, u: User, out: Outcome)
    requires Consistent(users, born) && (u.id in users ==> u.role == users[u.id].role)
    ensures Consistent(Update(users, u, out).0, born)
  {
    UpdateKeepsUnique(users, u, out);
  }

  lemma DeleteConsistent(users: Table, born: map<Id, User>, id: Id, out: Outcome)
    requires Consistent(users, born)
    ensures Consistent(Delete(users, id, out), born)
  {
  }

  lemma DeleteKeepsOAuth(users: Table, id: Id, out: Outcome)
    requires UniqueOAuth(users)
    ensures UniqueOAuth(Delete(users, id, out))
  {
  }

  /** With one email per tenant the picked row is the row. */
  lemma PickByEmail(users: Table, id: Id)
    requires UniqueEmails(users) && id in users
    ensures Pick(ByEmail(users, users[id].tenant, users[id].email)) == Some(id)
  {
    assert id in ByEmail(users, users[id].tenant, users[id].email);
  }

  lemma PickByOAuth(users: Table, id: Id)
    requires UniqueOAuth(users) && id in users && users[id].provider != ""
    ensures Pick(ByOAuth(users, users[id].tenant, users[id].provider, users[id].subject)) == Some(id)
  {
    assert id in ByOAuth(users, users[id].tenant, users[id].provider, users[id].subject);
  }

  // ---------- listings ----------

  /** rows lists a tenant's users once each, newest first, ties in some fixed order. */
  ghost predicate IsListing(users: Table, tenant: Tenant, rows: seq<User>) {
    && (forall i, j :: 0 <= i < j < |rows| ==> rows[i].id != rows[j].id && rows[i].createdAt >= rows[j].createdAt)
    && (forall i :: 0 <= i < |rows| ==> rows[i].id in users && users[rows[i].id] == rows[i] && rows[i].tenant == tenant)
    && (forall id :: id in users && users[id].tenant == tenant ==> users[id] in rows)
  }

  ghost predicate OnPage(rows: seq<User>, limit: nat, page: nat, u: User)
    requires limit >= 1
  {
    1 <= page <= CeilDiv(|rows|, limit) && u in PageOf(rows, page, limit)
  }

  lemma OnPageMeansInRange(rows: seq<User>, limit: nat, page: nat, u: User) returns (k: nat)
    requires 1 <= limit && |rows| < TWO_63 && OnPage(rows, limit, page, u)
    ensures Start(page, limit) <= k < Start(page, limit) + limit && k < |rows| && rows[k] == u
  {
    hide PageOf, CeilDiv, Start;
    PageContents(rows, limit, page);
    Starts(|rows|, limit, page);
    var p := PageOf(rows, page, limit);
    var j :| 0 <= j < |p| && p[j] == u;
    k := Start(page, limit) + j;
  }

  /** A user is on some page of a tenant's listing if and only if it is the tenant's, and then on one only. */
  lemma EachUserOnOnePage(users: Table, tenant: Tenant, rows: seq<User>, limit: nat, id: Id)
    requires IsListing(users, tenant, rows) && id in users && 1 <= limit && |rows| < TWO_63
    ensures users[id].tenant == tenant <==> exists page :: OnPage(rows, limit, page, users[id])
    ensures forall p, q :: OnPage(rows, limit, p, users[id]) && OnPage(rows, limit, q, users[id]) ==> p == q
  {
    hide PageOf, CeilDiv, Start;
    if users[id].tenant == tenant {
      var k :| 0 <= k < |rows| && rows[k] == users[id];
      var page := RowIsOnPage(rows, limit, k);
      assert OnPage(rows, limit, page, users[id]);
    } else if page :| OnPage(rows, limit, page, users[id]) {
      var k := OnPageMeansInRange(rows, limit, page, users[id]);
      assert false;
    }
    forall p, q | OnPage(rows, limit, p, users[id]) && OnPage(rows, limit, q, users[id]) ensures p == q {
      var k := OnPageMeansInRange(rows, limit, p, users[id]);
      var l := OnPageMeansInRange(rows, limit, q, users[id]);
      assert k == l;
      SamePage(p, q, limit, k);
    }
  }

  lemma SamePage(p: nat, q: nat, limit: nat, k: int)
    requires 1 <= limit && p >= 1 && q >= 1
    requires Start(p, limit) <= k < Start(p, limit) + limit && Start(q, limit) <= k < Start(q, limit) + limit
    ensures p == q
  {
    StartNext(p, limit);
    StartNext(q, limit);
    if p < q {
      MulMonotone(p, q - 1, limit);
    } else if q < p {
      MulMonotone(q, p - 1, limit);
    }
  }

  lemma RowIsOnPage(rows: seq<User>, limit: nat, k: nat) returns (page: nat)
    requires k < |rows| && 1 <= limit && |rows| < TWO_63
    ensures 1 <= page <= CeilDiv(|rows|, limit) && rows[k] in PageOf(rows, page, limit)
  {
    page := k / limit + 1;
    assert k == k / limit * limit + k % limit;
    hide CeilDiv, Offset;
    Starts(|rows|, limit, page);
    OffsetFits(|rows|, limit, page);
    assert PageOf(rows, page, limit)[k % limit] == rows[k];
  }

  // ---------- the repository ----------

  /** How the two queries of a listing end, and how many rows arrive before the cursor ends or breaks off. */
  datatype Listing = Listing(counted: bool, queried: bool, fetched: nat)

  function Arrived<T>(page: seq<T>, db: Listing): seq<T> {
    page[..Min(db.fetched, |page|)]
  }

  /** A page arrives whole if enough rows do, and otherwise is cut short after those that did. */
  lemma ArrivesInOrder<T>(page: seq<T>, db: Listing)
    ensures Arrived(page, db) <= page && |Arrived(page, db)| <= db.fetched
    ensures Arrived(page, db) == page <==> db.fetched >= |page|
    ensures db.fetched < |page| ==> |Arrived(page, db)| == db.fetched
  {
  }

  class UserRepository {
    var users: Table

    constructor ()
      ensures users == map[]
    {
      users := map[];
    }

    method Create(u: User, out: Outcome) returns (r: DbResult)
      modifies this
      ensures (users, r) == Insert(old(users), u, out)
    {
      var clash := || u.id in users
                   || exists id :: id in users && users[id].tenant == u.tenant && users[id].email == u.email;
      assert clash <==> u.id in users || ByEmail(users, u.tenant, u.email) != {} by {
        if id :| id in users && users[id].tenant == u.tenant && users[id].email == u.email {
          assert id in ByEmail(users, u.tenant, u.email);
        }
      }
      if !out.Refused? && !clash {
        users := users[u.id := u];
      }
      return if !out.Acked? then DbError else if clash then UniqueViolation else Applied;
    }

    method GetByEmail(tenant: Tenant, email: string) returns (r: Option<User>)
      ensures r.None? <==> ByEmail(users, tenant, email) == {}
      ensures r.Some? ==> exists id :: id in ByEmail(users, tenant, email) && r.value == users[id]
    {
      if id :| id in users && users[id].tenant == tenant && users[id].email == email {
        assert id in ByEmail(users, tenant, email);
        return Some(users[id]);
      }
      return None;
    }

    method GetByID(id: Id) returns (r: Option<User>)
      ensures r == if id in users then Some(users[id]) else None
    {
      return if id in users then Some(users[id]) else None;
    }

    method GetByOAuth(tenant: Tenant, provider: string, subject: string) returns (r: Option<User>)
      ensures r.None? <==> ByOAuth(users, tenant, provider, subject) == {}
      ensures r.Some? ==> exists id :: id in ByOAuth(users, tenant, provider, subject) && r.value == users[id]
    {
      if id :| id in users && users[id].tenant == tenant &&
               users[id].provider == provider && users[id].subject == subject
      {
        assert id in ByOAuth(users, tenant, provider, subject);
        return Some(users[id]);
      }
      return None;
    }

    method Save(u: User, out: Outcome) returns (r: DbResult)
      modifies this
      ensures (users, r) == Update(old(users), u, out)
    {
      var clash := u.id in users &&
                   exists id :: id in users && id != u.id &&
                                users[id].tenant == users[u.id].tenant && users[id].email == u.email;
      if u.id in users {
        ghost var others := ByEmail(users, users[u.id].tenant, u.email) - {u.id};
        if id :| id in users && id != u.id && users[id].tenant == users[u.id].tenant && users[id].email == u.email {
          assert id in others;
        } else {
          assert others == {};
        }
      }
      if !out.Refused? && !clash && u.id in users {
        users := users[u.id := Merge(users[u.id], u)];
      }
      return if !out.Acked? then DbError else if clash then UniqueViolation else Applied;
    }

    method Remove(id: Id, out: Outcome)
      modifies this
      ensures users == Delete(old(users), id, out)
    {
      if !out.Refused? {
        users := users - {id};
      }
    }

    /** rows is what the database would return without LIMIT and OFFSET. The loop does not look at the
        cursor's error, so a page that breaks off is answered as if it were whole. */
    method List(ghost tenant: Tenant, rows: seq<User>, page: int, limit: int, db: Listing)
      returns (ok: bool, data: seq<User>, total: nat)
      requires IsListing(users, tenant, rows)
      ensures var p, l := ClampPage(page), ClampLimit(limit);
              && ok == (db.counted && db.queried && Offset(p, l) >= 0)
              && (ok ==> total == |rows| && data == Arrived(PageOf(rows, p, l), db))
    {
      var p, l := page, limit;
      if p < 1 { p := 1; }
      if l < 1 { l := 10; }
      var offset := Offset(p, l);
      if !db.counted {
        return false, [], 0;
      }
      total := |rows|;
      if !db.queried || offset < 0 {
        return false, [], total;
      }
      var selected := Slice(rows, offset, l);
      data := [];
      var i := 0;
      while i < |selected| && i < db.fetched
        invariant 0 <= i <= |selected| && i <= db.fetched && data == selected[..i]
      {
        data := data + [selected[i]];
        i := i + 1;
      }
      return true, data, total;
    }
  }

  // ---------- the listing use cases ----------

  datatype Paginated = Paginated(data: seq<User>, page: int, limit: int, totalRows: nat, totalPages: int)

  ghost predicate ScimOf(users: seq<User>, resources: seq<ScimUser>) {
    |resources| == |users| && forall i :: 0 <= i < |users| ==> resources[i] == ToScim(users[i])
  }

  /** startIndex is the one-based position in the whole list of the first row shown. */
  lemma StartIndexOfPage(rows: seq<User>, page: int, limit: int)
    requires page >= 1 && limit >= 1 && |rows| < TWO_63
    ensures var p, start := PageOf(rows, page, limit), Wrap(Offset(page, limit) + 1);
            p != [] ==> 1 <= start <= |rows| && p[0] == rows[start - 1]
  {
    hide Offset, Wrap;
    var offset := Offset(page, limit);
    if 0 <= offset < |rows| {
      WrapFits(offset + 1);
    }
  }

  datatype ScimList = ScimList(totalResults: nat, itemsPerPage: int, startIndex: int, resources: seq<ScimUser>)

  class UserUseCase {
    const userRepo: UserRepository

    constructor (userRepo: UserRepository)
      ensures this.userRepo == userRepo
    {
      this.userRepo := userRepo;
    }

    /** rnd is binary64 rounding. Below 2^53 rows the page count is the number of pages that partition
        the list. */
    method ListUsers(ghost tenant: Tenant, rows: seq<User>, page: int, limit: int, db: Listing, rnd: real -> real)
      returns (r: Option<Paginated>)
      requires IsListing(userRepo.users, tenant, rows) && Rounding(rnd)
      ensures var p, l := ClampPage(page), ClampLimitTo100(limit);
              if !db.counted || !db.queried || Offset(p, l) < 0 then r == None
              else
                && r.Some? && r.value == Paginated(Arrived(PageOf(rows, p, l), db), p, l, |rows|, r.value.totalPages)
                && (|rows| < TWO_53 ==> r.value.totalPages == CeilDiv(|rows|, l))
                && (|rows| >= TWO_53 ==>
                      rnd(l as real) == l as real && r.value.totalPages == FloatPages(rnd, |rows|, l))
    {
      hide Offset, PageOf, CeilDiv, FloatPages, Precise, Monotone;
      var p, l := page, limit;
      if p < 1 { p := 1; }
      if l < 1 { l := 10; } else if l > 100 { l := 100; }
      var ok, data, total := userRepo.List(tenant, rows, p, l, db);
      if !ok {
        return None;
      }
      var totalPages := 0;
      assert rnd(l as real) == l as real;
      if total > 0 {
        totalPages := FloatPages(rnd, total, l);
      }
      if total < TWO_53 {
        PagesCounted(rnd, total, l);
      }
      return Some(Paginated(data, p, l, total, totalPages));
    }

    /** The SCIM listing clamps in its handler, to no maximum; the startIndex it is given is a page
        number, the one it answers the position of the first resource. */
    method ListScim(ghost tenant: Tenant, rows: seq<User>, startIndex: int, count: int, db: Listing)
      returns (r: Option<ScimList>)
      requires IsListing(userRepo.users, tenant, rows) && |rows| < TWO_63
      ensures var p, l := ClampPage(startIndex), ClampLimit(count);
              && (r.None? <==> !db.counted || !db.queried || Offset(p, l) < 0)
              && (r.Some? ==>
                    && r.value.totalResults == |rows| && r.value.itemsPerPage == l
                    && ScimOf(Arrived(PageOf(rows, p, l), db), r.value.resources)
                    && r.value.startIndex == Wrap(Offset(p, l) + 1)
                    && (r.value.resources != [] ==> 1 <= r.value.startIndex <= |rows|
                                                    && r.value.resources[0] == ToScim(rows[r.value.startIndex - 1])))
    {
      hide Wrap, Offset, PageOf;
      var l := if count < 1 then 10 else count;
      var p := if startIndex < 1 then 1 else startIndex;
      var ok, users, total := userRepo.List(tenant, rows, p, l, db);
      if !ok {
        return None;
      }
      var resources: seq<ScimUser> := [];
      for i := 0 to |users|
        invariant ScimOf(users[..i], resources)
      {
        resources := resources + [ToScim(users[i])];
      }
      assert users[..|users|] == users;
      StartIndexOfPage(rows, p, l);
      return Some(ScimList(total, l, Wrap(Offset(p, l) + 1), resources));
    }
  }
}
