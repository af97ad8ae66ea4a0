// Communities handler: community creation, membership counters, flairs,
// rules and widgets, the settings update builder and the first-match route
// dispatch.

module Communities {
  import opened Common

  // ------------------------------------------------------------------ records

  /** The community `META` item; its counters live in `Store` (see there). */
  datatype Community = Community(
    communityId: string, name: string, displayName: string, description: string,
    category: string, rules: seq<string>, status: string, createdAt: int, updatedAt: int)

  datatype Membership = Membership(userId: string, communityName: string, role: string, joinedAt: int)

  /**
   * META items by name, membership items by (community, userId), and the
   * `memberCount`/`postCount` counters by name. The counters are kept apart
   * from the META record because `ADD` creates them even where no META exists;
   * a counter the store lacks reads as 0.
   */
  datatype Store = Store(
    metas: map<string, Community>,
    members: map<(string, string), Membership>,
    memberCounts: map<string, int>,
    postCounts: map<string, int>)

  datatype Outcome = Outcome(status: nat, message: string, store: Store)

  function Counter(m: map<string, int>, k: string): int {
    if k in m then m[k] else 0
  }

  // ------------------------------------------------------------------- create

  datatype CreateRequest = CreateRequest(
    name: Option<string>, displayName: Option<string>, description: Option<string>,
    category: Option<string>, rules: Option<seq<string>>)

  function NewCommunity(req: CreateRequest, communityId: string, now: int): Community
    requires Truthy(req.name) && Truthy(req.displayName)
  {
    Community(communityId, req.name.value, req.displayName.value, OrElse(req.description, ""),
              OrElse(req.category, "general"), if req.rules.Some? then req.rules.value else [],
              "active", now, now)
  }

  /**
   * The `COMM#{name}`/`META` item exists: created here, or upserted as a
   * partial item by an `ADD` on one of its counters.
   */
  predicate HasMeta(s: Store, name: string) {
    name in s.metas || name in s.memberCounts || name in s.postCounts
  }

  /** POST /communities: 409 whenever the META item exists, even a partial one. */
  function Create(s: Store, req: CreateRequest, communityId: string, now: int): (o: Outcome)
    ensures !Truthy(req.name) || !Truthy(req.displayName) ==>
      o == Outcome(400, "name and displayName required", s)
    ensures Truthy(req.name) && Truthy(req.displayName) && HasMeta(s, req.name.value) ==>
      o == Outcome(409, "community already exists", s)
    ensures o.status == 201 <==>
      Truthy(req.name) && Truthy(req.displayName) && !HasMeta(s, req.name.value)
    ensures o.status == 201 ==>
      var n := req.name.value;
      o.store == Store(s.metas[n := NewCommunity(req, communityId, now)], s.members,
                       s.memberCounts[n := 0], s.postCounts[n := 0])
  {
    if !Truthy(req.name) || !Truthy(req.displayName) then Outcome(400, "name and displayName required", s)
    else if HasMeta(s, req.name.value) then Outcome(409, "community already exists", s)
    else
      var n := req.name.value;
      Outcome(201, "", Store(s.metas[n := NewCommunity(req, communityId, now)], s.members,
                             s.memberCounts[n := 0], s.postCounts[n := 0]))
  }

  /** A new community starts empty with the documented defaults and no creator recorded. */
  lemma CreateDefaults(s: Store, req: CreateRequest, communityId: string, now: int)
    requires Create(s, req, communityId, now).status == 201
    ensures var o := Create(s, req, communityId, now).store;
      var n := req.name.value;
      var c := o.metas[n];
      n in o.metas && Counter(o.memberCounts, n) == 0 && Counter(o.postCounts, n) == 0
      && (!Truthy(req.category) ==> c.category == "general")
      && (req.rules.None? ==> c.rules == [])
      && (!Truthy(req.description) ==> c.description == "")
      && c.status == "active" && c.createdAt == c.updatedAt == now
    ensures Create(Create(s, req, communityId, now).store, req, communityId, now).status == 409
  {
  }

  // --------------------------------------------------------------- membership

  /** `ADD memberCount :delta SET updatedAt = :now` on the META item. */
  function Touch(s: Store, name: string, delta: int, now: int): Store {
    s.(memberCounts := s.memberCounts[name := Counter(s.memberCounts, name) + delta],
       metas := if name in s.metas then s.metas[name := s.metas[name].(updatedAt := now)] else s.metas)
  }

  /** POST /communities/{name}/join: writes the membership and adds one, member or not. */
  function JoinCommunity(s: Store, name: string, userId: Option<string>, now: int): (o: Outcome)
    ensures !Truthy(userId) ==> o == Outcome(400, "userId required", s)
    ensures Truthy(userId) ==>
      o.status == 200
      && o.store.members == s.members[(name, userId.value) := Membership(userId.value, name, "member", now)]
      && Counter(o.store.memberCounts, name) == Counter(s.memberCounts, name) + 1
      && (forall c :: c != name ==> Counter(o.store.memberCounts, c) == Counter(s.memberCounts, c))
      && o.store.postCounts == s.postCounts
      && o.store.metas.Keys == s.metas.Keys
      && (name in s.metas ==> o.store.metas[name] == s.metas[name].(updatedAt := now))
      && (forall c :: c in s.metas && c != name ==> o.store.metas[c] == s.metas[c])
  {
    if !Truthy(userId) then Outcome(400, "userId required", s)
    else
      var s1 := s.(members := s.members[(name, userId.value) := Membership(userId.value, name, "member", now)]);
      Outcome(200, "joined successfully", Touch(s1, name, 1, now))
  }

  /** POST /communities/{name}/leave: deletes the membership and subtracts one, member or not. */
  function LeaveCommunity(s: Store, name: string, userId: Option<string>, now: int): (o: Outcome)
    ensures !Truthy(userId) ==> o == Outcome(400, "userId required", s)
    ensures Truthy(userId) ==>
      o.status == 200
      && o.store.members == s.members - {(name, userId.value)}
      && Counter(o.store.memberCounts, name) == Counter(s.memberCounts, name) - 1
      && (forall c :: c != name ==> Counter(o.store.memberCounts, c) == Counter(s.memberCounts, c))
      && o.store.postCounts == s.postCounts
      && o.store.metas.Keys == s.metas.Keys
      && (name in s.metas ==> o.store.metas[name] == s.metas[name].(updatedAt := now))
      && (forall c :: c in s.metas && c != name ==> o.store.metas[c] == s.metas[c])
  {
    if !Truthy(userId) then Outcome(400, "userId required", s)
    else
      var s1 := s.(members := s.members - {(name, userId.value)});
      Outcome(200, "left successfully", Touch(s1, name, -1, now))
  }

  /**
   * A join or a leave on a community nobody created upserts its META item,
   * so creating that name afterwards is refused with 409.
   */
  lemma MembershipBlocksCreate(s: Store, name: string, userId: Option<string>, joining: bool, now: int,
                               req: CreateRequest, communityId: string, later: int)
    requires Truthy(userId) && Truthy(req.displayName) && req.name == Some(name) && name != ""
    ensures var s1 := if joining then JoinCommunity(s, name, userId, now).store
                      else LeaveCommunity(s, name, userId, now).store;
      HasMeta(s1, name) && Create(s1, req, communityId, later).status == 409
  {
  }

  /** Joining twice counts the same user twice. */
  lemma RepeatedJoinsCount(s: Store, name: string, userId: Option<string>, now: int, later: int)
    requires Truthy(userId)
    ensures var s2 := JoinCommunity(JoinCommunity(s, name, userId, now).store, name, userId, later).store;
      Counter(s2.memberCounts, name) == Counter(s.memberCounts, name) + 2
      && (name, userId.value) in s2.members
  {
  }

  /** Leaving without being a member still subtracts one, so a fresh community reaches -1. */
  lemma LeaveWithoutMembership(s: Store, name: string, userId: Option<string>, now: int)
    requires Truthy(userId) && (name, userId.value) !in s.members && Counter(s.memberCounts, name) == 0
    ensures var o := LeaveCommunity(s, name, userId, now);
      o.status == 200 && Counter(o.store.memberCounts, name) == -1 && o.store.members == s.members
  {
  }

  /** A join followed by a leave restores the counter and removes the membership. */
  lemma JoinThenLeave(s: Store, name: string, userId: Option<string>, now: int, later: int)
    requires Truthy(userId)
    ensures var s2 := LeaveCommunity(JoinCommunity(s, name, userId, now).store, name, userId, later).store;
      s2.memberCounts == s.memberCounts[name := Counter(s.memberCounts, name)]
      && s2.members == s.members - {(name, userId.value)}
  {
    var s1 := JoinCommunity(s, name, userId, now).store;
    assert s1.members - {(name, userId.value)} == s.members - {(name, userId.value)};
  }

  // -------------------------------------------------- flairs, rules, widgets

  datatype Flair = Flair(flairId: string, community: string, text: string, backgroundColor: string,
                         textColor: string, moderatorOnly: bool, createdAt: int)

  /** POST /communities/{name}/flairs: the flair written, or 400 without text. */
  function AddFlair(community: string, text: Option<string>, backgroundColor: Option<string>,
                    textColor: Option<string>, moderatorOnly: Option<bool>,
                    flairId: string, now: int): (r: Reply<Flair>)
    ensures r.Failure? <==> !Truthy(text)
    ensures r.Failure? ==> r == Failure(400, "flair text required")
    ensures r.Success? ==>
      r.value.text == text.value && r.value.community == community
      && r.value.backgroundColor == (if Truthy(backgroundColor) then backgroundColor.value else "#0079d3")
      && r.value.textColor == (if Truthy(textColor) then textColor.value else "#ffffff")
      && (r.value.moderatorOnly <==> moderatorOnly == Some(true))
  {
    if !Truthy(text) then Failure(400, "flair text required")
    else Success(Flair(flairId, community, text.value, OrElse(backgroundColor, "#0079d3"),
                       OrElse(textColor, "#ffffff"), moderatorOnly == Some(true), now))
  }

  /** A rule item; `order` is optional on items read back, 0 when written without one. */
  datatype Rule = Rule(ruleId: string, title: string, description: string, order: Option<int>, createdAt: int)

  /** A widget item; `content` is the client's content as a string, `{}` when it is missing or empty. */
  datatype Widget = Widget(widgetId: string, widgetType: string, title: string, content: string,
                           order: Option<int>, createdAt: int)

  /** `order || 0`. */
  function OrderOf(order: Option<int>): int {
    if order.Some? then order.value else 0
  }

  /** POST /communities/{name}/rules. */
  function AddRule(title: Option<string>, description: Option<string>, order: Option<int>,
                   ruleId: string, now: int): (r: Reply<Rule>)
    ensures r.Failure? <==> !Truthy(title)
    ensures r.Failure? ==> r == Failure(400, "rule title required")
    ensures r.Success? ==>
      r.value.title == title.value && r.value.order == Some(OrderOf(order))
      && r.value.description == (if Truthy(description) then description.value else "")
  {
    if !Truthy(title) then Failure(400, "rule title required")
    else Success(Rule(ruleId, title.value, OrElse(description, ""), Some(OrderOf(order)), now))
  }

  /** POST /communities/{name}/widgets. */
  function AddWidget(widgetType: Option<string>, title: Option<string>, content: Option<string>,
                     order: Option<int>, widgetId: string, now: int): (r: Reply<Widget>)
    ensures r.Failure? <==> !Truthy(widgetType)
    ensures r.Failure? ==> r == Failure(400, "widgetType required")
    ensures r.Success? ==>
      r.value.widgetType == widgetType.value && r.value.order == Some(OrderOf(order))
      && r.value.title == (if Truthy(title) then title.value else "")
      && r.value.content == (if Truthy(content) then content.value else "{}")
  {
    if !Truthy(widgetType) then Failure(400, "widgetType required")
    else Success(Widget(widgetId, widgetType.value, OrElse(title, ""),
                        OrElse(content, "{}"), Some(OrderOf(order)), now))
  }

  /** Sort key that puts the smallest `order || 0` first. */
  function RuleKey(r: Rule): real { -(OrderOf(r.order) as real) }
  function WidgetKey(w: Widget): real { -(OrderOf(w.order) as real) }

  /** GET /communities/{name}/rules: `sort((a, b) => (a.order || 0) - (b.order || 0))`. */
  function ListRules(items: seq<Rule>): (r: seq<Rule>)
    ensures multiset(r) == multiset(items)
    ensures forall i, j :: 0 <= i < j < |r| ==> OrderOf(r[i].order) <= OrderOf(r[j].order)
  {
    var sorted := SortDesc(items, RuleKey);
    assert forall i, j :: 0 <= i < j < |sorted| ==> RuleKey(sorted[i]) >= RuleKey(sorted[j]);
    sorted
  }

  /** GET /communities/{name}/widgets, ordered the same way. */
  function ListWidgets(items: seq<Widget>): (r: seq<Widget>)
    ensures multiset(r) == multiset(items)
    ensures forall i, j :: 0 <= i < j < |r| ==> OrderOf(r[i].order) <= OrderOf(r[j].order)
  {
    var sorted := SortDesc(items, WidgetKey);
    assert forall i, j :: 0 <= i < j < |sorted| ==> WidgetKey(sorted[i]) >= WidgetKey(sorted[j]);
    sorted
  }

  /** A rule without an order sorts as order 0: before positive orders, after negative ones. */
  lemma MissingOrderReadsAsZero(items: seq<Rule>, i: nat, j: nat)
    requires i < |ListRules(items)| && j < |ListRules(items)|
    requires ListRules(items)[i].order.None?
    requires ListRules(items)[j].order.Some? && ListRules(items)[j].order.value > 0
    ensures i < j
  {
  }

  // ----------------------------------------------------------------- settings

  /** A field of the settings `SET` expression. */
  datatype Setting =
    | UpdatedAt | Description | Kind | Nsfw | AllowImages | AllowVideos | AllowPolls
    | RequirePostApproval | WelcomeMessage | PrimaryColor | Icon | Banner

  /** A JSON value the client may send for a setting. */
  datatype Value = Null | Flag(b: bool) | Text(s: string) | Number(n: int) | Time(ms: int)

  /** The settings body; a field the client left out is `None` (`=== undefined`). */
  datatype SettingsRequest = SettingsRequest(
    description: Option<Value>, kind: Option<Value>, nsfw: Option<Value>,
    allowImages: Option<Value>, allowVideos: Option<Value>, allowPolls: Option<Value>,
    requirePostApproval: Option<Value>, welcomeMessage: Option<Value>,
    primaryColor: Option<Value>, icon: Option<Value>, banner: Option<Value>)

  function Input(req: SettingsRequest, f: Setting): Option<Value> {
    match f
    case UpdatedAt => None
    case Description => req.description
    case Kind => req.kind
    case Nsfw => req.nsfw
    case AllowImages => req.allowImages
    case AllowVideos => req.allowVideos
    case AllowPolls => req.allowPolls
    case RequirePostApproval => req.requirePostApproval
    case WelcomeMessage => req.welcomeMessage
    case PrimaryColor => req.primaryColor
    case Icon => req.icon
    case Banner => req.banner
  }

  /** The clause each field contributes to the `SET` list. */
  function ClauseText(f: Setting): string {
    match f
    case UpdatedAt => "updatedAt = :now"
    case Description => "description = :desc"
    case Kind => "#type = :type"
    case Nsfw => "nsfw = :nsfw"
    case AllowImages => "allowImages = :img"
    case AllowVideos => "allowVideos = :vid"
    case AllowPolls => "allowPolls = :polls"
    case RequirePostApproval => "requirePostApproval = :approval"
    case WelcomeMessage => "welcomeMessage = :welcome"
    case PrimaryColor => "primaryColor = :color"
    case Icon => "icon = :icon"
    case Banner => "banner = :banner"
  }

  /** The value placeholder each field binds. */
  function ValueKey(f: Setting): string {
    match f
    case UpdatedAt => ":now"
    case Description => ":desc"
    case Kind => ":type"
    case Nsfw => ":nsfw"
    case AllowImages => ":img"
    case AllowVideos => ":vid"
    case AllowPolls => ":polls"
    case RequirePostApproval => ":approval"
    case WelcomeMessage => ":welcome"
    case PrimaryColor => ":color"
    case Icon => ":icon"
    case Banner => ":banner"
  }

  /** Position of each field in the order the handler checks them. */
  function Rank(f: Setting): nat {
    match f
    case UpdatedAt => 0
    case Description => 1
    case Kind => 2
    case Nsfw => 3
    case AllowImages => 4
    case AllowVideos => 5
    case AllowPolls => 6
    case RequirePostApproval => 7
    case WelcomeMessage => 8
    case PrimaryColor => 9
    case Icon => 10
    case Banner => 11
  }

  /** The field the handler checks at position `i`. */
  function FieldAt(i: nat): (f: Setting)
    requires i < 12
    ensures Rank(f) == i
  {
    if i == 0 then UpdatedAt else if i == 1 then Description else if i == 2 then Kind
    else if i == 3 then Nsfw else if i == 4 then AllowImages else if i == 5 then AllowVideos
    else if i == 6 then AllowPolls else if i == 7 then RequirePostApproval
    else if i == 8 then WelcomeMessage else if i == 9 then PrimaryColor
    else if i == 10 then Icon else Banner
  }

  /** One `if (x !== undefined) updates.push(…)`. */
  function Push(updates: seq<Setting>, f: Setting, v: Option<Value>): seq<Setting> {
    if v.Some? then updates + [f] else updates
  }

  /** One `if (x !== undefined) values[…] = x`. */
  function Put(values: map<Setting, Value>, f: Setting, v: Option<Value>): map<Setting, Value> {
    if v.Some? then values[f := v.value] else values
  }

  /** The `updates` list after all eleven checks, starting from `updatedAt`. */
  function SettingsClauses(req: SettingsRequest): seq<Setting> {
    ClausesUpTo(req, 12)
  }

  /** The `values` map after all eleven checks, starting from `:now`. */
  function SettingsValues(req: SettingsRequest, now: int): map<Setting, Value> {
    ValuesUpTo(req, now, 12)
  }

  /** A field is written when it is `updatedAt` or the client supplied it. */
  predicate Written(req: SettingsRequest, f: Setting) {
    f == UpdatedAt || Input(req, f).Some?
  }

  /** The `updates` list after the checks of the first `k` fields. */
  function ClausesUpTo(req: SettingsRequest, k: nat): seq<Setting>
    requires 1 <= k <= 12
  {
    if k == 1 then [UpdatedAt]
    else Push(ClausesUpTo(req, k - 1), FieldAt(k - 1), Input(req, FieldAt(k - 1)))
  }

  /** The `values` map after the checks of the first `k` fields. */
  function ValuesUpTo(req: SettingsRequest, now: int, k: nat): map<Setting, Value>
    requires 1 <= k <= 12
  {
    if k == 1 then map[UpdatedAt := Time(now)]
    else Put(ValuesUpTo(req, now, k - 1), FieldAt(k - 1), Input(req, FieldAt(k - 1)))
  }

  /** Strictly increasing in the handler's order: each field at most once, in check order. */
  predicate InHandlerOrder(u: seq<Setting>) {
    forall i, j :: 0 <= i < j < |u| ==> Rank(u[i]) < Rank(u[j])
  }

  /**
   * After `k` checks the list starts with `updatedAt`, is in check order and
   * holds exactly the written fields among the first `k`.
   */
  lemma {:induction false} ClausesUpToFields(req: SettingsRequest, k: nat)
    requires 1 <= k <= 12
    ensures |ClausesUpTo(req, k)| >= 1 && ClausesUpTo(req, k)[0] == UpdatedAt
    ensures InHandlerOrder(ClausesUpTo(req, k))
    ensures forall f :: f in ClausesUpTo(req, k) <==> Rank(f) < k && Written(req, f)
  {
    if k > 1 {
      ClausesUpToFields(req, k - 1);
      var u, g := ClausesUpTo(req, k - 1), FieldAt(k - 1);
      assert forall x :: x in u ==> Rank(x) < k - 1;
      forall f ensures f in Push(u, g, Input(req, g)) <==> Rank(f) < k && Written(req, f) {
        if Rank(f) == k - 1 {
          assert f == g;
        }
      }
    }
  }

  /** After `k` checks a value is bound exactly for the written fields among the first `k`. */
  lemma {:induction false} ValuesUpToFields(req: SettingsRequest, now: int, k: nat, f: Setting)
    requires 1 <= k <= 12
    ensures f in ValuesUpTo(req, now, k) <==> Rank(f) < k && Written(req, f)
    ensures f in ValuesUpTo(req, now, k) ==>
      ValuesUpTo(req, now, k)[f] == if f == UpdatedAt then Time(now) else Input(req, f).value
  {
    if k > 1 {
      ValuesUpToFields(req, now, k - 1, f);
      if Rank(f) == k - 1 {
        assert f == FieldAt(k - 1);
      }
    }
  }

  /**
   * The clauses are exactly the written fields, each once, in the order the
   * handler checks them, with `updatedAt` first.
   */
  lemma SettingsClausesInOrder(req: SettingsRequest)
    ensures forall f :: f in SettingsClauses(req) <==> Written(req, f)
    ensures InHandlerOrder(SettingsClauses(req))
    ensures |SettingsClauses(req)| >= 1 && SettingsClauses(req)[0] == UpdatedAt
  {
    ClausesUpToFields(req, 12);
  }

  /** A value is bound exactly for each written field, to what the client sent. */
  lemma SettingsValueFields(req: SettingsRequest, now: int, f: Setting)
    ensures f in SettingsValues(req, now) <==> Written(req, f)
    ensures f == UpdatedAt ==> SettingsValues(req, now)[f] == Time(now)
    ensures f != UpdatedAt && Input(req, f).Some? ==> SettingsValues(req, now)[f] == Input(req, f).value
  {
    ValuesUpToFields(req, now, 12, f);
  }

  /** The `ExpressionAttributeNames` the handler sends: only when `type` was supplied. */
  function AttributeNames(req: SettingsRequest): (r: Option<map<string, string>>)
    ensures r.Some? <==> req.kind.Some?
    ensures r.Some? ==> r.value == map["#type" := "type"]
  {
    var names: map<string, string> := if req.kind.Some? then map["#type" := "type"] else map[];
    if |names| > 0 then Some(names) else None
  }

  /** `SET ` followed by the clauses joined with `, `. */
  function UpdateExpression(updates: seq<Setting>): string {
    "SET " + Join(seq(|updates|, i requires 0 <= i < |updates| => ClauseText(updates[i])), ", ")
  }

  /** The `if (… !== undefined)` step the handler repeats for each field. */
  method Include(updates: seq<Setting>, values: map<Setting, Value>, f: Setting, v: Option<Value>)
    returns (updates': seq<Setting>, values': map<Setting, Value>)
    ensures updates' == Push(updates, f, v) && values' == Put(values, f, v)
  {
    updates', values' := updates, values;
    if v.Some? {
      updates' := updates' + [f];
      values' := values'[f := v.value];
    }
  }

  /** PUT /communities/{name}/settings: builds the update, field by field. */
  method BuildSettingsUpdate(req: SettingsRequest, now: int)
    returns (updates: seq<Setting>, values: map<Setting, Value>, names: Option<map<string, string>>)
    ensures updates == SettingsClauses(req)
    ensures values == SettingsValues(req, now)
    ensures names == AttributeNames(req)
  {
    updates := [UpdatedAt];
    values := map[UpdatedAt := Time(now)];
    assert updates == ClausesUpTo(req, 1) && values == ValuesUpTo(req, now, 1);
    updates, values := Include(updates, values, Description, req.description);
    assert updates == ClausesUpTo(req, 2) && values == ValuesUpTo(req, now, 2);
    updates, values := Include(updates, values, Kind, req.kind);
    assert updates == ClausesUpTo(req, 3) && values == ValuesUpTo(req, now, 3);
    updates, values := Include(updates, values, Nsfw, req.nsfw);
    assert updates == ClausesUpTo(req, 4) && values == ValuesUpTo(req, now, 4);
    updates, values := Include(updates, values, AllowImages, req.allowImages);
    assert updates == ClausesUpTo(req, 5) && values == ValuesUpTo(req, now, 5);
    updates, values := Include(updates, values, AllowVideos, req.allowVideos);
    assert updates == ClausesUpTo(req, 6) && values == ValuesUpTo(req, now, 6);
    updates, values := Include(updates, values, AllowPolls, req.allowPolls);
    assert updates == ClausesUpTo(req, 7) && values == ValuesUpTo(req, now, 7);
    updates, values := Include(updates, values, RequirePostApproval, req.requirePostApproval);
    assert updates == ClausesUpTo(req, 8) && values == ValuesUpTo(req, now, 8);
    updates, values := Include(updates, values, WelcomeMessage, req.welcomeMessage);
    assert updates == ClausesUpTo(req, 9) && values == ValuesUpTo(req, now, 9);
    updates, values := Include(updates, values, PrimaryColor, req.primaryColor);
    assert updates == ClausesUpTo(req, 10) && values == ValuesUpTo(req, now, 10);
    updates, values := Include(updates, values, Icon, req.icon);
    assert updates == ClausesUpTo(req, 11) && values == ValuesUpTo(req, now, 11);
    updates, values := Include(updates, values, Banner, req.banner);
    assert updates == ClausesUpTo(req, 12) && values == ValuesUpTo(req, now, 12);
    var attributeNames: map<string, string> := map[];
    if req.kind.Some? {
      attributeNames := attributeNames["#type" := "type"];
    }
    names := if |attributeNames| > 0 then Some(attributeNames) else None;
  }

  // ----------------------------------------------------------------- dispatch

  datatype Request = Request(httpMethod: string, path: string, name: Option<string>, username: Option<string>)

  datatype Route =
    | Preflight | CreateRoute | GetCommunityRoute | ListRoute | JoinRoute | LeaveRoute
    | AddFlairRoute | GetFlairsRoute | SettingsRoute | AddRuleRoute | GetRulesRoute
    | AddWidgetRoute | GetWidgetsRoute | UserCommunitiesRoute | BadRequest

  /** The handler's if-chain, first match wins. */
  function RouteOf(r: Request): Route {
    var m, path, named := r.httpMethod, r.path, Truthy(r.name);
    if m == "OPTIONS" then Preflight
    else if m == "POST" && path == "/communities" then CreateRoute
    else if m == "GET" && named then GetCommunityRoute
    else if m == "GET" && path == "/communities" then ListRoute
    else if m == "POST" && named && Includes(path, "/join") then JoinRoute
    else if m == "POST" && named && Includes(path, "/leave") then LeaveRoute
    else if m == "POST" && named && Includes(path, "/flairs") then AddFlairRoute
    else if m == "GET" && named && Includes(path, "/flairs") then GetFlairsRoute
    else if m == "PUT" && named && Includes(path, "/settings") then SettingsRoute
    else if m == "POST" && named && Includes(path, "/rules") then AddRuleRoute
    else if m == "GET" && named && Includes(path, "/rules") then GetRulesRoute
    else if m == "POST" && named && Includes(path, "/widgets") then AddWidgetRoute
    else if m == "GET" && named && Includes(path, "/widgets") then GetWidgetsRoute
    else if m == "GET" && Truthy(r.username) && Includes(path, "/communities") then UserCommunitiesRoute
    else BadRequest
  }

  /** Every GET naming a community reads its META, so the flair, rule and widget lists are never served. */
  lemma DeadCommunityRoutes(r: Request)
    ensures RouteOf(r) !in {GetFlairsRoute, GetRulesRoute, GetWidgetsRoute}
    ensures r.httpMethod == "GET" && Truthy(r.name) ==> RouteOf(r) == GetCommunityRoute
  {
  }

  /** Leaving a community whose name starts with `join` joins it again. */
  lemma JoinPrefixedNameCannotLeave(n: string)
    requires StartsWith(n, "join")
    ensures RouteOf(Request("POST", "/communities/" + n + "/leave", Some(n), None)) == JoinRoute
  {
    var rest := n[4..];
    assert n == "join" + rest;
    IncludesMiddle("/communities", "/join", rest + "/leave");
    assert "/communities/" + n + "/leave" == "/communities" + "/join" + (rest + "/leave");
  }

  /** The sub-resource a path ends in, or `""` when it ends in none of them. */
  function SubresourceOf(path: string): string {
    if EndsWith(path, "/flairs") then "/flairs"
    else if EndsWith(path, "/rules") then "/rules"
    else if EndsWith(path, "/widgets") then "/widgets"
    else if EndsWith(path, "/join") then "/join"
    else if EndsWith(path, "/leave") then "/leave"
    else if EndsWith(path, "/settings") then "/settings"
    else ""
  }

  /**
   * The same chain with each sub-resource matched on the path's last segment
   * and the sub-resource GETs matched before the community itself.
   */
  function RouteOfCorrected(r: Request): Route {
    var m, path, named := r.httpMethod, r.path, Truthy(r.name);
    var sub := SubresourceOf(path);
    if m == "OPTIONS" then Preflight
    else if m == "POST" && path == "/communities" then CreateRoute
    else if m == "GET" && named && sub == "/flairs" then GetFlairsRoute
    else if m == "GET" && named && sub == "/rules" then GetRulesRoute
    else if m == "GET" && named && sub == "/widgets" then GetWidgetsRoute
    else if m == "GET" && named then GetCommunityRoute
    else if m == "GET" && path == "/communities" then ListRoute
    else if m == "POST" && named && sub == "/join" then JoinRoute
    else if m == "POST" && named && sub == "/leave" then LeaveRoute
    else if m == "POST" && named && sub == "/flairs" then AddFlairRoute
    else if m == "PUT" && named && sub == "/settings" then SettingsRoute
    else if m == "POST" && named && sub == "/rules" then AddRuleRoute
    else if m == "POST" && named && sub == "/widgets" then AddWidgetRoute
    else if m == "GET" && Truthy(r.username) && Includes(path, "/communities") then UserCommunitiesRoute
    else BadRequest
  }

  /** The route a method and final path segment name under /communities/{name}. */
  function Intended(m: string, sub: string): Route {
    if m == "GET" && sub == "/flairs" then GetFlairsRoute
    else if m == "GET" && sub == "/rules" then GetRulesRoute
    else if m == "GET" && sub == "/widgets" then GetWidgetsRoute
    else if m == "POST" && sub == "/join" then JoinRoute
    else if m == "POST" && sub == "/leave" then LeaveRoute
    else if m == "POST" && sub == "/flairs" then AddFlairRoute
    else if m == "PUT" && sub == "/settings" then SettingsRoute
    else if m == "POST" && sub == "/rules" then AddRuleRoute
    else if m == "POST" && sub == "/widgets" then AddWidgetRoute
    else BadRequest
  }

  lemma EndsWithSuffix(a: string, b: string)
    ensures EndsWith(a + b, b)
  {
    assert (a + b)[|a + b| - |b|..] == b;
  }

  /** `/word` with no further slash. */
  predicate Segment(w: string) {
    |w| >= 1 && w[0] == '/' && forall i :: 0 < i < |w| ==> w[i] != '/'
  }

  /** Of two single segments ending one path, neither is a proper suffix of the other. */
  lemma SuffixesExclusive(path: string, a: string, b: string)
    requires Segment(a) && Segment(b) && a != b
    requires EndsWith(path, a)
    ensures !EndsWith(path, b)
  {
    if EndsWith(path, b) {
      if |b| <= |a| {
        EndsWithBoth(path, a, b);
      } else {
        EndsWithBoth(path, b, a);
      }
    }
  }

  /** Two suffixes of one string: the shorter ends the longer. */
  lemma EndsWithBoth(path: string, a: string, b: string)
    requires EndsWith(path, a) && EndsWith(path, b) && |b| <= |a|
    ensures EndsWith(a, b)
  {
    assert a[|a| - |b|..] == path[|path| - |b|..];
  }

  const Subresources: set<string> := {"/flairs", "/rules", "/widgets", "/join", "/leave", "/settings"}

  /** A path ending in one sub-resource ends in that one and in no other. */
  lemma OnlySuffix(path: string, sub: string)
    requires sub in Subresources && EndsWith(path, sub)
    ensures SubresourceOf(path) == sub
  {
    Others(path, sub, "/flairs");
    Others(path, sub, "/rules");
    Others(path, sub, "/widgets");
    Others(path, sub, "/join");
    Others(path, sub, "/leave");
    Others(path, sub, "/settings");
  }

  /** A request naming a community and ending in a sub-resource reaches that sub-resource's route. */
  lemma CorrectedRouteFor(r: Request, sub: string)
    requires Truthy(r.name) && r.path != "/communities"
    requires sub in Subresources && EndsWith(r.path, sub)
    requires Intended(r.httpMethod, sub) != BadRequest
    ensures RouteOfCorrected(r) == Intended(r.httpMethod, sub)
  {
    OnlySuffix(r.path, sub);
    var m := r.httpMethod;
    if m == "GET" {
      assert m != "OPTIONS" && m != "POST";
    } else if m == "POST" {
      assert m != "OPTIONS" && m != "GET" && r.path != "/communities";
    } else {
      assert m == "PUT" && sub == "/settings";
      assert m != "OPTIONS" && m != "GET" && m != "POST";
    }
  }

  /** Every sub-resource route is reached by its own path, whatever the community is called. */
  lemma CorrectedCommunityRoutes(m: string, n: string, sub: string)
    requires n != ""
    requires Intended(m, sub) != BadRequest
    ensures RouteOfCorrected(Request(m, "/communities/" + n + sub, Some(n), None)) == Intended(m, sub)
  {
    var path := "/communities/" + n + sub;
    assert |path| > |"/communities"|;
    EndsWithSuffix("/communities/" + n, sub);
    CorrectedRouteFor(Request(m, path, Some(n), None), sub);
  }

  lemma SubresourceSegments(sub: string)
    requires sub in Subresources
    ensures Segment(sub)
  {
  }

  lemma Others(path: string, sub: string, t: string)
    requires sub in Subresources && t in Subresources && EndsWith(path, sub)
    ensures t != sub ==> !EndsWith(path, t)
  {
    if t != sub {
      SubresourceSegments(sub);
      SubresourceSegments(t);
      SuffixesExclusive(path, sub, t);
    }
  }
}
