/**
 * The dashboards API over the stored dashboards: creating, showing, changing,
 * deleting, sharing and unsharing one, with the policy checks each action
 * makes. A user keeps at most one default dashboard, and a dashboard has a
 * share token exactly when it is shared.
 */
module Dashboards {
  import opened Types
  import opened DashboardPolicy

  /**
   * The validated fields of a request; a field is `None` when the request
   * does not carry it. Fields that may be sent as null are themselves options.
   */
  datatype DashboardInput = DashboardInput(
    name: Option<string>,
    description: Option<Option<string>>,
    layoutConfig: Option<Option<string>>,
    widgets: Option<Option<string>>,
    isDefault: Option<bool>)

  /** The answer of an action on one dashboard. */
  datatype Reply<T> = NotFound | Forbidden | Unprocessable | Answer(value: T)

  /** `name` is required on creation and at most 255 characters long. */
  predicate ValidStore(input: DashboardInput)
  {
    input.name.Some? && |input.name.value| <= 255
  }

  /** On a change `name` may be left out, and otherwise obeys the same bound. */
  predicate ValidUpdate(input: DashboardInput)
  {
    input.name.Some? ==> |input.name.value| <= 255
  }

  function Flatten(x: Option<Option<string>>): Option<string>
  {
    if x.Some? then x.value else None
  }

  /** `$validated['is_default'] ?? false`. */
  predicate AsksDefault(input: DashboardInput)
  {
    input.isDefault == Some(true)
  }

  /** The dashboard `create($validated)` makes: absent fields take their column defaults. */
  function Created(userId: int, id: int, input: DashboardInput): Dashboard
    requires ValidStore(input)
  {
    Dashboard(id, userId, input.name.value, Flatten(input.description), Flatten(input.layoutConfig),
              Flatten(input.widgets), AsksDefault(input), false, None)
  }

  /** `update($validated)`: the fields the request carries replace the stored ones. */
  function Applied(d: Dashboard, input: DashboardInput): Dashboard
  {
    d.(name := if input.name.Some? then input.name.value else d.name,
       description := if input.description.Some? then input.description.value else d.description,
       layoutConfig := if input.layoutConfig.Some? then input.layoutConfig.value else d.layoutConfig,
       widgets := if input.widgets.Some? then input.widgets.value else d.widgets,
       isDefault := if input.isDefault.Some? then input.isDefault.value else d.isDefault)
  }

  /** `dashboards()->update(['is_default' => false])` for one user. */
  function ClearDefaults(ds: seq<Dashboard>, userId: int): (r: seq<Dashboard>)
    ensures |r| == |ds|
    ensures forall i :: 0 <= i < |ds| ==>
              r[i] == (if ds[i].userId == userId then ds[i].(isDefault := false) else ds[i])
  {
    seq(|ds|, i requires 0 <= i < |ds| => if ds[i].userId == userId then ds[i].(isDefault := false) else ds[i])
  }

  /** PHP truthiness of a token: null, `""` and `"0"` are false. */
  predicate HasToken(d: Dashboard)
  {
    d.shareToken.Some? && d.shareToken.value != "" && d.shareToken.value != "0"
  }

  /** The dashboard after `share` with the freshly drawn `token`. */
  function Shared(d: Dashboard, token: string): Dashboard
  {
    if HasToken(d) then d else d.(shareToken := Some(token), isShared := true)
  }

  /** The dashboard after `unshare`. */
  function Unshared(d: Dashboard): Dashboard
  {
    d.(shareToken := None, isShared := false)
  }

  /** The link `share` answers with: `url('/shared/' . token)` under the application's base URL. */
  function ShareUrl(appUrl: string, d: Dashboard): string
    requires d.shareToken.Some?
  {
    appUrl + "/shared/" + d.shareToken.value
  }

  /** The first stored dashboard with this id (route model binding). */
  function Find(ds: seq<Dashboard>, id: int): (r: Option<nat>)
    ensures r.Some? ==> r.value < |ds| && ds[r.value].id == id
    ensures r.None? ==> forall i :: 0 <= i < |ds| ==> ds[i].id != id
  {
    if ds == [] then None
    else if ds[0].id == id then Some(0)
    else match Find(ds[1..], id)
      case None => None
      case Some(k) => Some(k + 1)
  }

  function Without(ds: seq<Dashboard>, k: nat): seq<Dashboard>
    requires k < |ds|
  {
    ds[..k] + ds[k + 1..]
  }

  /** No user has two default dashboards. */
  ghost predicate OneDefaultPerUser(ds: seq<Dashboard>)
  {
    forall i, j :: 0 <= i < |ds| && 0 <= j < |ds| && i != j && ds[i].userId == ds[j].userId ==>
      !(ds[i].isDefault && ds[j].isDefault)
  }

  /** A dashboard has a (truthy) share token exactly when it is shared. */
  ghost predicate TokenIffShared(d: Dashboard)
  {
    (d.shareToken.Some? <==> d.isShared) && (d.shareToken.Some? ==> HasToken(d))
  }

  /** A random token of `Str::random(32)`: thirty-two characters. */
  predicate FreshToken(token: string)
  {
    |token| == 32
  }

  // ---------------------------------------------------------------------------
  // Properties of the row operations
  // ---------------------------------------------------------------------------

  /** Clearing a user's defaults touches nothing else and leaves that user with none. */
  lemma ClearDefaultsSpec(ds: seq<Dashboard>, userId: int)
    ensures forall i :: 0 <= i < |ds| && ds[i].userId != userId ==> ClearDefaults(ds, userId)[i] == ds[i]
    ensures forall i :: 0 <= i < |ds| && ds[i].userId == userId ==> !ClearDefaults(ds, userId)[i].isDefault
    ensures forall i :: 0 <= i < |ds| ==> ClearDefaults(ds, userId)[i].(isDefault := ds[i].isDefault) == ds[i]
    ensures OneDefaultPerUser(ds) ==> OneDefaultPerUser(ClearDefaults(ds, userId))
  {
  }

  /** Creating as default after clearing the user's defaults, or creating a non-default one, keeps one default per user. */
  lemma StoreKeepsOneDefault(ds: seq<Dashboard>, userId: int, id: int, input: DashboardInput)
    requires ValidStore(input) && OneDefaultPerUser(ds)
    ensures OneDefaultPerUser((if AsksDefault(input) then ClearDefaults(ds, userId) else ds) + [Created(userId, id, input)])
  {
    var base := if AsksDefault(input) then ClearDefaults(ds, userId) else ds;
    var r := base + [Created(userId, id, input)];
    ClearDefaultsSpec(ds, userId);
    forall i, j | 0 <= i < |r| && 0 <= j < |r| && i != j && r[i].userId == r[j].userId
      ensures !(r[i].isDefault && r[j].isDefault)
    {
      if i < |base| && j < |base| {
        assert r[i] == base[i] && r[j] == base[j];
      }
    }
  }

  /**
   * A change that asks for the default clears the user's others only when the
   * target is not yet the default; either way one default per user remains.
   */
  lemma UpdateKeepsOneDefault(ds: seq<Dashboard>, k: nat, input: DashboardInput)
    requires k < |ds| && OneDefaultPerUser(ds)
    ensures var base := if AsksDefault(input) && !ds[k].isDefault then ClearDefaults(ds, ds[k].userId) else ds;
            OneDefaultPerUser(base[k := Applied(ds[k], input)])
  {
    var user := ds[k].userId;
    var base := if AsksDefault(input) && !ds[k].isDefault then ClearDefaults(ds, user) else ds;
    var r := base[k := Applied(ds[k], input)];
    ClearDefaultsSpec(ds, user);
    forall i, j | 0 <= i < |r| && 0 <= j < |r| && i != j && r[i].userId == r[j].userId
      ensures !(r[i].isDefault && r[j].isDefault)
    {
      if i != k && j != k {
        assert r[i] == base[i] && r[j] == base[j];
      } else if i == k {
        assert r[j] == base[j];
      } else {
        assert r[i] == base[i];
      }
    }
  }

  /** The write of `update` keeps ids and the sharing fields of every dashboard. */
  lemma UpdateKeeps(ds: seq<Dashboard>, k: nat, input: DashboardInput, nextId: int)
    requires k < |ds|
    ensures var base := if AsksDefault(input) && !ds[k].isDefault then ClearDefaults(ds, ds[k].userId) else ds;
            var r := base[k := Applied(ds[k], input)];
            && |r| == |ds|
            && (forall i :: 0 <= i < |r| ==> r[i].id == ds[i].id && r[i].shareToken == ds[i].shareToken &&
                                               r[i].isShared == ds[i].isShared)
  {
  }

  /**
   * Sharing twice is sharing once; a dashboard without a token gets the fresh
   * one and becomes shared; one with a token keeps it.
   */
  lemma ShareIdempotent(d: Dashboard, t1: string, t2: string)
    requires FreshToken(t1)
    ensures Shared(Shared(d, t1), t2) == Shared(d, t1)
    ensures !HasToken(d) ==> Shared(d, t1).shareToken == Some(t1) && Shared(d, t1).isShared
    ensures HasToken(d) ==> Shared(d, t1) == d
  {
  }

  /** Sharing and unsharing keep a token exactly on shared dashboards, and change no other field. */
  lemma SharingKeepsTokenIffShared(d: Dashboard, token: string)
    requires TokenIffShared(d) && FreshToken(token)
    ensures TokenIffShared(Shared(d, token)) && TokenIffShared(Unshared(d))
    ensures Shared(d, token).(shareToken := d.shareToken, isShared := d.isShared) == d
    ensures Unshared(d).(shareToken := d.shareToken, isShared := d.isShared) == d
  {
  }

  /** After an unshare, sharing draws a new link. */
  lemma ReshareDrawsNewToken(d: Dashboard, token: string)
    ensures Shared(Unshared(d), token).shareToken == Some(token)
  {
  }

  /** Creating and changing never touch the sharing fields. */
  lemma WritesLeaveSharing(userId: int, id: int, d: Dashboard, input: DashboardInput)
    ensures ValidStore(input) ==> !Created(userId, id, input).isShared && Created(userId, id, input).shareToken.None?
    ensures Applied(d, input).isShared == d.isShared && Applied(d, input).shareToken == d.shareToken
    ensures Applied(d, input).id == d.id && Applied(d, input).userId == d.userId
  {
  }

  /** Deleting removes exactly the dashboard at `k` and keeps the rest in order. */
  lemma WithoutSpec(ds: seq<Dashboard>, k: nat)
    requires k < |ds|
    ensures |Without(ds, k)| == |ds| - 1
    ensures forall i :: 0 <= i < |ds| - 1 ==> Without(ds, k)[i] == (if i < k then ds[i] else ds[i + 1])
    ensures multiset(Without(ds, k)) + multiset{ds[k]} == multiset(ds)
  {
    assert ds == ds[..k] + [ds[k]] + ds[k + 1..];
  }

  /** Deleting keeps every property that holds pairwise or one dashboard at a time. */
  lemma WithoutKeeps(ds: seq<Dashboard>, k: nat, nextId: int)
    requires k < |ds|
    ensures (forall i, j :: 0 <= i < j < |ds| ==> ds[i].id != ds[j].id) ==>
              forall i, j :: 0 <= i < j < |Without(ds, k)| ==> Without(ds, k)[i].id != Without(ds, k)[j].id
    ensures (forall i :: 0 <= i < |ds| ==> ds[i].id < nextId) ==>
              forall i :: 0 <= i < |Without(ds, k)| ==> Without(ds, k)[i].id < nextId
    ensures (forall i :: 0 <= i < |ds| ==> TokenIffShared(ds[i])) ==>
              forall i :: 0 <= i < |Without(ds, k)| ==> TokenIffShared(Without(ds, k)[i])
    ensures OneDefaultPerUser(ds) ==> OneDefaultPerUser(Without(ds, k))
  {
    var r := Without(ds, k);
    WithoutSpec(ds, k);
    assert forall i :: 0 <= i < |r| ==> r[i] == ds[if i < k then i else i + 1];
  }

  // ---------------------------------------------------------------------------
  // The stored dashboards
  // ---------------------------------------------------------------------------

  class DashboardStore {
    var dashboards: seq<Dashboard>
    var nextId: int

    ghost predicate Valid()
      reads this
    {
      && (forall i, j :: 0 <= i < j < |dashboards| ==> dashboards[i].id != dashboards[j].id)
      && (forall i :: 0 <= i < |dashboards| ==> dashboards[i].id < nextId)
      && OneDefaultPerUser(dashboards)
      && (forall i :: 0 <= i < |dashboards| ==> TokenIffShared(dashboards[i]))
    }

    constructor ()
      ensures Valid() && dashboards == [] && nextId == 1
    {
      dashboards, nextId := [], 1;
    }

    /** `store`. */
    method Store(userId: int, input: DashboardInput) returns (reply: Reply<Dashboard>)
      requires Valid()
      modifies this
      ensures Valid()
      ensures !ValidStore(input) ==> reply == Unprocessable && dashboards == old(dashboards) && nextId == old(nextId)
      ensures ValidStore(input) ==>
                && reply == Answer(Created(userId, old(nextId), input))
                && dashboards == (if AsksDefault(input) then ClearDefaults(old(dashboards), userId) else old(dashboards)) +
                                 [Created(userId, old(nextId), input)]
                && nextId == old(nextId) + 1
    {
      if !ValidStore(input) {
        return Unprocessable;
      }
      StoreKeepsOneDefault(dashboards, userId, nextId, input);
      ClearDefaultsSpec(dashboards, userId);
      if AsksDefault(input) {
        dashboards := ClearDefaults(dashboards, userId);
      }
      var d := Created(userId, nextId, input);
      dashboards := dashboards + [d];
      nextId := nextId + 1;
      reply := Answer(d);
    }

    /** `show`. */
    method Show(userId: int, id: int) returns (reply: Reply<Dashboard>)
      ensures Find(dashboards, id).None? ==> reply == NotFound
      ensures Find(dashboards, id).Some? ==>
                var d := dashboards[Find(dashboards, id).value];
                reply == if CanView(userId, d) then Answer(d) else Forbidden
    {
      var k := Find(dashboards, id);
      if k.None? {
        return NotFound;
      }
      var d := dashboards[k.value];
      if !CanView(userId, d) {
        return Forbidden;
      }
      reply := Answer(d);
    }

    /** `update`: the policy first, then validation, then the default rule, then the write. */
    method Update(userId: int, id: int, input: DashboardInput) returns (reply: Reply<Dashboard>)
      requires Valid()
      modifies this
      ensures Valid() && nextId == old(nextId)
      ensures Find(old(dashboards), id).None? ==> reply == NotFound && dashboards == old(dashboards)
      ensures Find(old(dashboards), id).Some? ==>
                var k := Find(old(dashboards), id).value;
                var d := old(dashboards)[k];
                if !CanUpdate(userId, d) then reply == Forbidden && dashboards == old(dashboards)
                else if !ValidUpdate(input) then reply == Unprocessable && dashboards == old(dashboards)
                else
                  var base := if AsksDefault(input) && !d.isDefault then ClearDefaults(old(dashboards), userId)
                              else old(dashboards);
                  reply == Answer(Applied(d, input)) && dashboards == base[k := Applied(d, input)]
    {
      var found := Find(dashboards, id);
      if found.None? {
        return NotFound;
      }
      var k := found.value;
      var d := dashboards[k];
      if !CanUpdate(userId, d) {
        return Forbidden;
      }
      if !ValidUpdate(input) {
        return Unprocessable;
      }
      UpdateKeepsOneDefault(dashboards, k, input);
      UpdateKeeps(dashboards, k, input, nextId);
      if AsksDefault(input) && !d.isDefault {
        dashboards := ClearDefaults(dashboards, userId);
      }
      var e := Applied(d, input);
      dashboards := dashboards[k := e];
      reply := Answer(e);
    }

    /** `destroy`: only the target is removed. */
    method Destroy(userId: int, id: int) returns (reply: Reply<()>)
      requires Valid()
      modifies this
      ensures Valid() && nextId == old(nextId)
      ensures Find(old(dashboards), id).None? ==> reply == NotFound && dashboards == old(dashboards)
      ensures Find(old(dashboards), id).Some? ==>
                var k := Find(old(dashboards), id).value;
                if CanDelete(userId, old(dashboards)[k]) then reply == Answer(()) && dashboards == Without(old(dashboards), k)
                else reply == Forbidden && dashboards == old(dashboards)
    {
      var found := Find(dashboards, id);
      if found.None? {
        return NotFound;
      }
      var k := found.value;
      if !CanDelete(userId, dashboards[k]) {
        return Forbidden;
      }
      WithoutSpec(dashboards, k);
      WithoutKeeps(dashboards, k, nextId);
      dashboards := Without(dashboards, k);
      reply := Answer(());
    }

    /** `share`, with the token `Str::random(32)` draws; the answer is the share link. */
    method Share(userId: int, id: int, token: string, appUrl: string) returns (reply: Reply<string>)
      requires Valid() && FreshToken(token)
      modifies this
      ensures Valid() && nextId == old(nextId)
      ensures Find(old(dashboards), id).None? ==> reply == NotFound && dashboards == old(dashboards)
      ensures Find(old(dashboards), id).Some? ==>
                var k := Find(old(dashboards), id).value;
                if !CanUpdate(userId, old(dashboards)[k]) then reply == Forbidden && dashboards == old(dashboards)
                else
                  && dashboards == old(dashboards)[k := Shared(old(dashboards)[k], token)]
                  && dashboards[k].shareToken.Some?
                  && reply == Answer(ShareUrl(appUrl, dashboards[k]))
    {
      var found := Find(dashboards, id);
      if found.None? {
        return NotFound;
      }
      var k := found.value;
      var d := dashboards[k];
      if !CanUpdate(userId, d) {
        return Forbidden;
      }
      SharingKeepsTokenIffShared(d, token);
      if !HasToken(d) {
        d := d.(shareToken := Some(token), isShared := true);
      }
      dashboards := dashboards[k := d];
      reply := Answer(ShareUrl(appUrl, d));
    }

    /** `unshare`. */
    method Unshare(userId: int, id: int) returns (reply: Reply<()>)
      requires Valid()
      modifies this
      ensures Valid() && nextId == old(nextId)
      ensures Find(old(dashboards), id).None? ==> reply == NotFound && dashboards == old(dashboards)
      ensures Find(old(dashboards), id).Some? ==>
                var k := Find(old(dashboards), id).value;
                if CanUpdate(userId, old(dashboards)[k]) then
                  reply == Answer(()) && dashboards == old(dashboards)[k := Unshared(old(dashboards)[k])]
                else reply == Forbidden && dashboards == old(dashboards)
    {
      var found := Find(dashboards, id);
      if found.None? {
        return NotFound;
      }
      var k := found.value;
      if !CanUpdate(userId, dashboards[k]) {
        return Forbidden;
      }
      dashboards := dashboards[k := Unshared(dashboards[k])];
      reply := Answer(());
    }
  }
}
