/**
 * `AccountManager` (src/account_manager.py) over an abstract `accounts`
 * table. The table is a map from row id to row; the `email` column is UNIQUE
 * and ids come from an AUTOINCREMENT counter, as the schema in
 * database/init_db.py declares. Random name/phone generation and
 * `ORDER BY RANDOM()` are oracles.
 */
module AccountManager {
  import opened Wrappers

  datatype Status = Active | Inactive | OtherStatus(name: string)

  datatype Account = Account(
    platform: string,
    email: string,
    password: string,
    firstName: string,
    lastName: string,
    phone: string,
    lastUsed: Option<nat>,
    status: Status)

  /** The `accounts` table: rows by id and the next AUTOINCREMENT id. */
  datatype Table = Table(rows: map<nat, Account>, nextId: nat)

  /** The dict `get_account` builds from columns 0..6 of the selected row. */
  datatype AccountView = AccountView(
    id: nat, platform: string, email: string, password: string,
    firstName: string, lastName: string, phone: string)

  /** The values `create_account` draws from the random generators. */
  datatype Generated = Generated(email: string, firstName: string, lastName: string, phone: string)

  /** Row ids are positive and below the counter, and no two rows share an email. */
  ghost predicate Valid(t: Table) {
    && 0 < t.nextId
    && (forall id :: id in t.rows ==> 0 < id < t.nextId)
    && (forall a, b :: a in t.rows && b in t.rows && t.rows[a].email == t.rows[b].email ==> a == b)
  }

  function Empty(): (t: Table)
    ensures Valid(t) && t.rows == map[]
  {
    Table(map[], 1)
  }

  predicate EmailTaken(t: Table, email: string) {
    exists id :: id in t.rows && t.rows[id].email == email
  }

  function View(id: nat, a: Account): (v: AccountView)
    ensures v.id == id && v.platform == a.platform && v.email == a.email && v.password == a.password
    ensures v.firstName == a.firstName && v.lastName == a.lastName && v.phone == a.phone
  {
    AccountView(id, a.platform, a.email, a.password, a.firstName, a.lastName, a.phone)
  }

  /**
   * `create_account`: a falsy email is replaced by a generated one; an email
   * already in the table violates UNIQUE, so nothing is inserted and the
   * result is None; otherwise a new active row gets the next id.
   */
  function CreateAccount(t: Table, platform: string, email: Option<string>, password: string, gen: Generated)
    : (res: (Table, Option<nat>))
    requires Valid(t)
    ensures Valid(res.0)
    ensures var used := if Truthy(email) then email.value else gen.email;
            && (res.1.None? <==> EmailTaken(t, used))
            && (res.1.None? ==> res.0 == t)
            && (res.1.Some? ==>
                  && res.1.value !in t.rows
                  && res.0.rows == t.rows[res.1.value := Account(platform, used, password, gen.firstName, gen.lastName, gen.phone, None, Active)]
                  && res.0.nextId > res.1.value)
  {
    var used := if Truthy(email) then email.value else gen.email;
    if EmailTaken(t, used) then (t, None)
    else
      var id := t.nextId;
      var row := Account(platform, used, password, gen.firstName, gen.lastName, gen.phone, None, Active);
      (Table(t.rows[id := row], id + 1), Some(id))
  }

  /** Ids in [lo, nextId) of active rows of `platform`, ascending. */
  function ActiveIds(t: Table, platform: string, lo: nat): (ids: seq<nat>)
    requires lo <= t.nextId
    ensures forall k :: 0 <= k < |ids| ==> ids[k] in t.rows && t.rows[ids[k]].platform == platform && t.rows[ids[k]].status == Active
    ensures forall id :: lo <= id < t.nextId && id in t.rows && t.rows[id].platform == platform && t.rows[id].status == Active ==> id in ids
    decreases t.nextId - lo
  {
    if lo == t.nextId then []
    else
      var rest := ActiveIds(t, platform, lo + 1);
      if lo in t.rows && t.rows[lo].platform == platform && t.rows[lo].status == Active then [lo] + rest else rest
  }

  predicate HasActive(t: Table, platform: string) {
    exists id :: id in t.rows && t.rows[id].platform == platform && t.rows[id].status == Active
  }

  /** Python truthiness of an integer id: 0 and None are falsy. */
  predicate IdGiven(accountId: Option<int>) {
    accountId.Some? && accountId.value != 0
  }

  /**
   * `get_account(platform, account_id)`: a truthy id selects that row by id
   * alone; otherwise one active row of the platform is drawn with `pick`.
   */
  function GetAccount(t: Table, platform: string, accountId: Option<int>, pick: nat): (r: Option<AccountView>)
    requires Valid(t)
    ensures IdGiven(accountId) ==>
              (r.Some? <==> (accountId.value >= 0 && accountId.value as nat in t.rows))
              && (r.Some? ==> r == Some(View(accountId.value as nat, t.rows[accountId.value as nat])))
    ensures !IdGiven(accountId) ==>
              (r.Some? <==> HasActive(t, platform))
              && (r.Some? ==> r.value.id in t.rows && r.value == View(r.value.id, t.rows[r.value.id])
                              && t.rows[r.value.id].platform == platform && t.rows[r.value.id].status == Active)
  {
    if IdGiven(accountId) then
      if accountId.value >= 0 && accountId.value as nat in t.rows then
        Some(View(accountId.value as nat, t.rows[accountId.value as nat]))
      else None
    else
      var ids := ActiveIds(t, platform, 0);
      if |ids| == 0 then None
      else
        var id := ids[pick % |ids|];
        Some(View(id, t.rows[id]))
  }

  /** `get_random_account(platform)` is `get_account(platform)` with no id. */
  function GetRandomAccount(t: Table, platform: string, pick: nat): (r: Option<AccountView>)
    requires Valid(t)
    ensures r == GetAccount(t, platform, None, pick)
  {
    GetAccount(t, platform, None, pick)
  }

  /** `update_last_used(id)`: stamps `last_used` of that row with the clock reading `now`. */
  function UpdateLastUsed(t: Table, id: nat, now: nat): (t': Table)
    requires Valid(t)
    ensures Valid(t')
    ensures t'.nextId == t.nextId && t'.rows.Keys == t.rows.Keys
    ensures id in t.rows ==> t'.rows[id] == t.rows[id].(lastUsed := Some(now))
    ensures forall other :: other in t.rows && other != id ==> t'.rows[other] == t.rows[other]
  {
    if id in t.rows then Table(t.rows[id := t.rows[id].(lastUsed := Some(now))], t.nextId) else t
  }

  /** `deactivate_account(id)`: sets that row's status to 'inactive'. */
  function DeactivateAccount(t: Table, id: nat): (t': Table)
    requires Valid(t)
    ensures Valid(t')
    ensures t'.nextId == t.nextId && t'.rows.Keys == t.rows.Keys
    ensures id in t.rows ==> t'.rows[id] == t.rows[id].(status := Inactive)
    ensures forall other :: other in t.rows && other != id ==> t'.rows[other] == t.rows[other]
  {
    if id in t.rows then Table(t.rows[id := t.rows[id].(status := Inactive)], t.nextId) else t
  }

  /** After deactivation, no draw for any platform returns that account. */
  lemma DeactivatedNeverDrawn(t: Table, id: nat, platform: string, pick: nat)
    requires Valid(t)
    ensures var r := GetAccount(DeactivateAccount(t, id), platform, None, pick);
            r.None? || r.value.id != id
  {
  }
}
