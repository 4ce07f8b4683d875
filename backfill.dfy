/**
  The role and area backfill: for every point it looks the vacancy up on
  hh.ru, reads its professional roles and its area, groups the page's points
  by the resulting pair of strings, and writes each group's pair back in
  batches.
 */
module Backfill {
  import opened Wrappers
  import opened PyText
  import opened Json
  import opened HhId
  import opened HhApi
  import opened PointStore
  import opened Batching
  import opened Scroll

  /** What `fetch_meta` returns: the distinct role names, `None` when there
      are none, and the area's `name` field, `Null` when there is none. */
  datatype Meta = Meta(roles: Option<seq<string>>, area: Json)

  /** The values `for rr in roles` visits, `roles` being
      `data.get("professional_roles") or []`. A list visits its items. A
      string visits one-character strings. A dict visits its keys, and the
      first non-empty one fails `.get` in the loop; only the key `""` gets
      through. A number or a boolean is not iterable. */
  function RoleItems(roles: Json): (r: Result<seq<Json>, PyError>)
    ensures !Truthy(roles) ==> r == Ok([])
    ensures Truthy(roles) && roles.List? ==> r == Ok(roles.items)
    ensures Truthy(roles) && (roles.Num? || roles.Bool?) ==> r == Err(TypeError)
  {
    if !Truthy(roles) then Ok([])
    else
      match roles
      case List(items, _) => Ok(items)
      case Str(s) => Ok(Chars(s))
      case Object(fields, _) => if fields.Keys == {""} then Ok([Str("")]) else Err(AttributeError)
      case _ => Err(TypeError)
  }

  /** The one-character strings of `s`, as iterating a string yields them. */
  function Chars(s: string): (r: seq<Json>)
    ensures |r| == |s|
    ensures forall i :: 0 <= i < |s| ==> r[i] == Str([s[i]])
  {
    if s == [] then [] else [Str([s[0]])] + Chars(s[1..])
  }

  /** The name one role item contributes: `(rr or {}).get("name")`, kept as
      `str(name).strip()` when truthy. Only a dict has `.get`. */
  function RoleName(rr: Json): (r: Result<Option<string>, PyError>)
    ensures r.Err? <==> Truthy(rr) && !rr.Object?
    ensures r == Ok(None) <==> !Truthy(rr) || (rr.Object? && !Truthy(Get(rr.fields, "name")))
    ensures Truthy(rr) && rr.Object? && Truthy(Get(rr.fields, "name")) ==>
      r == Ok(Some(Strip(Show(Get(rr.fields, "name")))))
  {
    if !Truthy(rr) then Ok(None)
    else if rr.Object? then
      var name := Get(rr.fields, "name");
      if Truthy(name) then Ok(Some(Strip(Show(name)))) else Ok(None)
    else Err(AttributeError)
  }

  /** `role_names` after the items `items`, or the error that ends `fetch_meta`. */
  function RoleNames(items: seq<Json>): Result<seq<string>, PyError> {
    if items == [] then Ok([])
    else
      match RoleNames(items[..|items| - 1])
      case Err(e) => Err(e)
      case Ok(names) =>
        match RoleName(items[|items| - 1])
        case Err(e) => Err(e)
        case Ok(None) => Ok(names)
        case Ok(Some(n)) => Ok(names + [n])
  }

  /** The collection loop of `fetch_meta`. */
  method CollectRoleNames(items: seq<Json>) returns (r: Result<seq<string>, PyError>)
    ensures r == RoleNames(items)
  {
    var names: seq<string> := [];
    var i := 0;
    while i < |items|
      invariant i <= |items|
      invariant RoleNames(items[..i]) == Ok(names)
    {
      RoleNamesNext(items, i, names);
      var name := RoleName(items[i]);
      if name.Err? {
        RoleNamesStaysErr(items, i + 1);
        return Err(name.error);
      }
      if name.value.Some? {
        names := names + [name.value.value];
      }
      i := i + 1;
    }
    assert items[..|items|] == items;
    return Ok(names);
  }

  /** One more item: its name, if any, is appended, or its error is raised. */
  lemma RoleNamesNext(items: seq<Json>, i: nat, names: seq<string>)
    requires i < |items| && RoleNames(items[..i]) == Ok(names)
    ensures RoleName(items[i]).Err? ==> RoleNames(items[..i + 1]) == Err(RoleName(items[i]).error)
    ensures RoleName(items[i]) == Ok(None) ==> RoleNames(items[..i + 1]) == Ok(names)
    ensures RoleName(items[i]).Ok? && RoleName(items[i]).value.Some? ==>
      RoleNames(items[..i + 1]) == Ok(names + [RoleName(items[i]).value.value])
  {
    assert items[..i + 1][..i] == items[..i];
  }

  /** Once a prefix of the items fails, all of them fail the same way. */
  lemma {:induction false} RoleNamesStaysErr(items: seq<Json>, n: nat)
    requires n <= |items| && RoleNames(items[..n]).Err?
    ensures RoleNames(items) == RoleNames(items[..n])
    decreases |items| - n
  {
    if n < |items| {
      assert items[..n + 1][..n] == items[..n];
      RoleNamesStaysErr(items, n + 1);
    } else {
      assert items[..n] == items;
    }
  }

  /** Every name a successful collection keeps is the name of one of the
      items, and there are no more names than items. */
  lemma {:induction false} RoleNamesFromItems(items: seq<Json>)
    requires RoleNames(items).Ok?
    ensures forall k :: 0 <= k < |RoleNames(items).value| ==>
      exists j :: 0 <= j < |items| && RoleName(items[j]) == Ok(Some(RoleNames(items).value[k]))
    ensures |RoleNames(items).value| <= |items|
    decreases |items|
  {
    if items != [] {
      var init := items[..|items| - 1];
      RoleNamesFromItems(init);
      var names := RoleNames(items).value;
      forall k | 0 <= k < |names|
        ensures exists j :: 0 <= j < |items| && RoleName(items[j]) == Ok(Some(names[k]))
      {
        if k < |RoleNames(init).value| {
          var j :| 0 <= j < |init| && RoleName(init[j]) == Ok(Some(RoleNames(init).value[k]));
          assert items[j] == init[j];
        } else {
          assert RoleName(items[|items| - 1]) == Ok(Some(names[k]));
        }
      }
    }
  }

  /** Reference definition of "uniq preserve order": each value at its first
      occurrence. */
  function Dedup(xs: seq<string>): seq<string> {
    if xs == [] then []
    else
      var d := Dedup(xs[..|xs| - 1]);
      if xs[|xs| - 1] in d then d else d + [xs[|xs| - 1]]
  }

  /** No value appears twice. */
  predicate Distinct<T(==)>(xs: seq<T>) {
    forall i, j :: 0 <= i < j < |xs| ==> xs[i] != xs[j]
  }

  /** The de-duplicated names hold each name once, and exactly the names of
      the input. */
  lemma {:induction false} DedupSpec(xs: seq<string>)
    ensures Distinct(Dedup(xs))
    ensures forall x :: x in Dedup(xs) <==> x in xs
    ensures |Dedup(xs)| <= |xs|
    decreases |xs|
  {
    if xs != [] {
      var init := xs[..|xs| - 1];
      DedupSpec(init);
      assert xs == init + [xs[|xs| - 1]];
    }
  }

  /** A first occurrence is kept in place: the de-duplication of a prefix is
      a prefix of the de-duplication. */
  lemma {:induction false} DedupPrefix(xs: seq<string>, n: nat)
    requires n <= |xs|
    ensures Dedup(xs[..n]) <= Dedup(xs)
    decreases |xs| - n
  {
    if n < |xs| {
      DedupPrefix(xs, n + 1);
      assert xs[..n + 1][..n] == xs[..n];
    } else {
      assert xs[..n] == xs;
    }
  }

  /** The de-duplication loop of `fetch_meta`, with its `seen` set. */
  method UniqueRoles(names: seq<string>) returns (uniq: seq<string>)
    ensures uniq == Dedup(names)
  {
    var seen: set<string> := {};
    uniq := [];
    var i := 0;
    while i < |names|
      invariant i <= |names|
      invariant uniq == Dedup(names[..i])
      invariant forall x :: x in seen <==> x in uniq
    {
      assert names[..i + 1][..i] == names[..i];
      var n := names[i];
      if n !in seen {
        seen := seen + {n};
        uniq := uniq + [n];
      }
      i := i + 1;
    }
    assert names[..|names|] == names;
  }

  /** `area_name`: the `name` field of `data["area"]` when that is a dict. */
  function AreaName(data: Payload): Json {
    var area := Get(data, "area");
    if area.Object? then Get(area.fields, "name") else Null
  }

  /** `fetch_meta(hc, hh_id)` given what the request produced. */
  function MetaOf(reply: Reply): Result<Meta, PyError> {
    if reply.Response? && reply.status == 404 then Ok(Meta(None, Null))
    else
      match Body(reply)
      case Err(e) => Err(e)
      case Ok(data) =>
        match RoleItems(Get(data, "professional_roles"))
        case Err(e) => Err(e)
        case Ok(items) =>
          match RoleNames(items)
          case Err(e) => Err(e)
          case Ok(names) =>
            var uniq := Dedup(names);
            Ok(Meta(if uniq == [] then None else Some(uniq), AreaName(data)))
  }

  /** A 404 gives nothing; otherwise a reply is usable only with a 2xx status
      and a JSON object body. The roles, when present, are non-empty and
      distinct, and the area is the object's `area.name`. */
  lemma MetaOfSpec(reply: Reply)
    ensures reply.Response? && reply.status == 404 ==> MetaOf(reply) == Ok(Meta(None, Null))
    ensures MetaOf(reply).Ok? && !(reply.Response? && reply.status == 404) ==>
      Body(reply).Ok? && MetaOf(reply).value.area == AreaName(Body(reply).value)
    ensures MetaOf(reply).Ok? && MetaOf(reply).value.roles.Some? ==>
      MetaOf(reply).value.roles.value != [] && Distinct(MetaOf(reply).value.roles.value)
  {
    if MetaOf(reply).Ok? && !(reply.Response? && reply.status == 404) {
      var items := RoleItems(Get(Body(reply).value, "professional_roles")).value;
      DedupSpec(RoleNames(items).value);
    }
  }

  /** `fetch_meta`. */
  method FetchMeta(reply: Reply) returns (r: Result<Meta, PyError>)
    ensures r == MetaOf(reply)
  {
    if reply.Response? && reply.status == 404 {
      return Ok(Meta(None, Null));
    }
    var body := Body(reply);
    if body.Err? {
      return Err(body.error);
    }
    var data := body.value;
    var items := RoleItems(Get(data, "professional_roles"));
    if items.Err? {
      return Err(items.error);
    }
    var names := CollectRoleNames(items.value);
    if names.Err? {
      return Err(names.error);
    }
    var uniq := UniqueRoles(names.value);
    return Ok(Meta(if uniq == [] then None else Some(uniq), AreaName(data)));
  }

  /** The dict key a point is grouped under: the joined role names and the
      area value. */
  datatype GroupKey = GroupKey(roles: string, area: Json)

  /** Where a point ends up on its page. */
  datatype Outcome = NoHhId | HttpSkip | NoMeta | Grouped(key: GroupKey)

  /** The group key for the fetched metadata, when there is one. Hashing the
      key fails on an area that is a list or a dict. */
  function KeyOf(m: Meta): (r: Result<Outcome, PyError>)
    ensures r == Ok(NoMeta) <==> (m.roles.None? || m.roles.value == []) && !Truthy(m.area)
    ensures r.Err? <==> Truthy(m.area) && (m.area.List? || m.area.Object?)
    ensures r.Ok? ==> r.value.NoMeta? || r.value.Grouped?
    ensures r.Ok? && r.value.Grouped? ==>
      && r.value.key.roles == (if m.roles.Some? then Join(", ", m.roles.value) else "")
      && r.value.key.area == (if Truthy(m.area) then m.area else Str(""))
  {
    if (m.roles.None? || m.roles.value == []) && !Truthy(m.area) then Ok(NoMeta)
    else
      var rolesStr := if m.roles.Some? && m.roles.value != [] then Join(", ", m.roles.value) else "";
      var area := if Truthy(m.area) then m.area else Str("");
      if area.List? || area.Object? then Err(TypeError)
      else Ok(Grouped(GroupKey(rolesStr, area)))
  }

  /** One iteration of the inner loop of `main`. Reading the URL and hashing
      the key can raise, which ends the run; a failing lookup only skips the
      point. */
  function PointOutcome(pt: Point, fetch: string -> Reply): Result<Outcome, PyError> {
    match TextField(pt.payload, UrlKeys, "")
    case Err(e) => Err(e)
    case Ok(url) =>
      match ExtractHhId(url)
      case None => Ok(NoHhId)
      case Some(hh) =>
        match MetaOf(fetch(hh))
        case Err(_) => Ok(HttpSkip)
        case Ok(m) => KeyOf(m)
  }

  /** Only an unreadable URL or an unhashable area ends the run. A point is
      counted as having no hh.ru id exactly when its URL holds none, and as
      skipped exactly when the lookup fails; otherwise its outcome is the key
      of the fetched metadata. */
  lemma PointOutcomeSpec(pt: Point, fetch: string -> Reply)
    ensures var url := TextField(pt.payload, UrlKeys, "");
      && (url.Err? ==> PointOutcome(pt, fetch) == Err(url.error))
      && (url.Ok? ==> (PointOutcome(pt, fetch) == Ok(NoHhId) <==> ExtractHhId(url.value).None?))
      && (url.Ok? && ExtractHhId(url.value).Some? ==>
            var meta := MetaOf(fetch(ExtractHhId(url.value).value));
            && (PointOutcome(pt, fetch) == Ok(HttpSkip) <==> meta.Err?)
            && (meta.Ok? ==> PointOutcome(pt, fetch) == KeyOf(meta.value)))
  {
  }

  /** How each point of a page is classified. */
  type Classifier = Point -> Result<Outcome, PyError>

  /** The classifier the backfill uses for a given lookup. */
  function ClassifyBy(fetch: string -> Reply): Classifier {
    pt => PointOutcome(pt, fetch)
  }

  /** The `groups` dict of a page, with its keys in insertion order, and the
      page's counters. */
  datatype PageGroups = PageGroups(groups: map<GroupKey, seq<PointId>>, order: seq<GroupKey>,
                                   checked: nat, noHhId: nat, http: nat)

  /** `groups.setdefault(key, []).append(id)`. */
  function Insert(g: PageGroups, key: GroupKey, id: PointId): PageGroups {
    if key in g.groups then g.(groups := g.groups[key := g.groups[key] + [id]])
    else g.(groups := g.groups[key := [id]], order := g.order + [key])
  }

  /** The page after one more point. */
  function Step(acc: Result<PageGroups, PyError>, pt: Point, classify: Classifier): Result<PageGroups, PyError> {
    match acc
    case Err(e) => Err(e)
    case Ok(g) =>
      match classify(pt)
      case Err(e) => Err(e)
      case Ok(NoHhId) => Ok(g.(noHhId := g.noHhId + 1))
      case Ok(HttpSkip) => Ok(g.(http := g.http + 1))
      case Ok(NoMeta) => Ok(g.(checked := g.checked + 1))
      case Ok(Grouped(key)) => Ok(Insert(g.(checked := g.checked + 1), key, pt.id))
  }

  /** The page after the points `pts`, or the error that ended the run. */
  function Group(pts: seq<Point>, classify: Classifier): Result<PageGroups, PyError> {
    if pts == [] then Ok(PageGroups(map[], [], 0, 0, 0))
    else Step(Group(pts[..|pts| - 1], classify), pts[|pts| - 1], classify)
  }

  lemma GroupPrefix(pts: seq<Point>, classify: Classifier, i: nat)
    requires i < |pts|
    ensures Group(pts[..i + 1], classify) == Step(Group(pts[..i], classify), pts[i], classify)
  {
    assert pts[..i + 1][..i] == pts[..i];
  }

  lemma {:induction false} GroupStaysErr(pts: seq<Point>, classify: Classifier, n: nat)
    requires n <= |pts| && Group(pts[..n], classify).Err?
    ensures Group(pts, classify) == Group(pts[..n], classify)
    decreases |pts| - n
  {
    if n < |pts| {
      GroupPrefix(pts, classify, n);
      GroupStaysErr(pts, classify, n + 1);
    } else {
      assert pts[..n] == pts;
    }
  }

  /** The inner loop of `main` on one page; `classify` is the loop body's
      decision for one point (`ClassifyBy(fetch)` in the backfill). */
  method GroupPage(pts: seq<Point>, classify: Classifier) returns (r: Result<PageGroups, PyError>)
    ensures r == Group(pts, classify)
  {
    var groups: map<GroupKey, seq<PointId>> := map[];
    var order: seq<GroupKey> := [];
    var checked, noHhId, http := 0, 0, 0;
    var i := 0;
    while i < |pts|
      invariant i <= |pts|
      invariant Group(pts[..i], classify) == Ok(PageGroups(groups, order, checked, noHhId, http))
    {
      GroupPrefix(pts, classify, i);
      var pt := pts[i];
      match classify(pt) {
        case Err(e) =>
          GroupStaysErr(pts, classify, i + 1);
          return Err(e);
        case Ok(NoHhId) =>
          noHhId := noHhId + 1;
        case Ok(HttpSkip) =>
          http := http + 1;
        case Ok(NoMeta) =>
          checked := checked + 1;
        case Ok(Grouped(key)) =>
          ghost var g0 := PageGroups(groups, order, checked + 1, noHhId, http);
          checked := checked + 1;
          if key !in groups {
            groups := groups[key := []];
            order := order + [key];
          }
          assert groups[key] == IdsOf(g0.groups, key);
          groups := groups[key := groups[key] + [pt.id]];
          assert groups == g0.groups[key := IdsOf(g0.groups, key) + [pt.id]];
          assert key !in g0.groups ==> IdsOf(g0.groups, key) + [pt.id] == [pt.id];
          assert PageGroups(groups, order, checked, noHhId, http) == Insert(g0, key, pt.id);
      }
      i := i + 1;
    }
    assert pts[..|pts|] == pts;
    return Ok(PageGroups(groups, order, checked, noHhId, http));
  }

  /** The ids a dict entry holds; none for an absent key. */
  function IdsOf(groups: map<GroupKey, seq<PointId>>, key: GroupKey): seq<PointId> {
    if key in groups then groups[key] else []
  }

  /** Reference definition: the ids of the points grouped under `key`, in page order. */
  function Members(pts: seq<Point>, classify: Classifier, key: GroupKey): seq<PointId> {
    if pts == [] then []
    else
      var last := pts[|pts| - 1];
      Members(pts[..|pts| - 1], classify, key) + if classify(last) == Ok(Grouped(key)) then [last.id] else []
  }

  /** The insertion order lists each key of the dict once, and no entry is empty. */
  ghost predicate WellFormed(g: PageGroups) {
    && Distinct(g.order)
    && (forall k :: k in g.groups <==> k in g.order)
    && (forall k :: k in g.groups ==> g.groups[k] != [])
  }

  /** The number of ids in the groups, as `updated` counts them. */
  function GroupSizes(order: seq<GroupKey>, groups: map<GroupKey, seq<PointId>>): nat {
    if order == [] then 0 else |IdsOf(groups, order[0])| + GroupSizes(order[1..], groups)
  }

  lemma {:induction false} SizesFrame(order: seq<GroupKey>, groups: map<GroupKey, seq<PointId>>, key: GroupKey, v: seq<PointId>)
    requires key !in order
    ensures GroupSizes(order, groups[key := v]) == GroupSizes(order, groups)
    decreases |order|
  {
    if order != [] {
      SizesFrame(order[1..], groups, key, v);
    }
  }

  lemma {:induction false} SizesAppend(order: seq<GroupKey>, groups: map<GroupKey, seq<PointId>>, key: GroupKey)
    ensures GroupSizes(order + [key], groups) == GroupSizes(order, groups) + |IdsOf(groups, key)|
    decreases |order|
  {
    if order == [] {
      assert order + [key] == [key];
    } else {
      assert (order + [key])[1..] == order[1..] + [key];
      SizesAppend(order[1..], groups, key);
    }
  }

  lemma {:induction false} SizesBump(order: seq<GroupKey>, groups: map<GroupKey, seq<PointId>>, key: GroupKey, id: PointId)
    requires Distinct(order) && key in order
    ensures GroupSizes(order, groups[key := IdsOf(groups, key) + [id]]) == GroupSizes(order, groups) + 1
    decreases |order|
  {
    var groups' := groups[key := IdsOf(groups, key) + [id]];
    if order[0] == key {
      assert key !in order[1..];
      SizesFrame(order[1..], groups, key, IdsOf(groups, key) + [id]);
    } else {
      assert Distinct(order[1..]) by {
        forall i, j | 0 <= i < j < |order[1..]| ensures order[1..][i] != order[1..][j] {
          assert order[1..][i] == order[i + 1] && order[1..][j] == order[j + 1];
        }
      }
      SizesBump(order[1..], groups, key, id);
    }
  }

  /** `setdefault(...).append(...)` adds the id at the end of its key's
      entry, lists a new key once, at the end of the order, and touches no
      other entry. */
  lemma InsertSpec(g: PageGroups, key: GroupKey, id: PointId)
    requires WellFormed(g)
    ensures WellFormed(Insert(g, key, id))
    ensures forall k :: IdsOf(Insert(g, key, id).groups, k) == IdsOf(g.groups, k) + if k == key then [id] else []
    ensures Insert(g, key, id).order == if key in g.groups then g.order else g.order + [key]
    ensures GroupSizes(Insert(g, key, id).order, Insert(g, key, id).groups) == GroupSizes(g.order, g.groups) + 1
  {
    var g' := Insert(g, key, id);
    if key in g.groups {
      SizesBump(g.order, g.groups, key, id);
    } else {
      SizesFrame(g.order, g.groups, key, [id]);
      SizesAppend(g.order, g'.groups, key);
    }
    if key !in g.groups {
      forall i, j | 0 <= i < j < |g'.order| ensures g'.order[i] != g'.order[j] {
        if j == |g.order| {
          assert g'.order[i] == g.order[i];
        }
      }
    }
  }

  /** One point changes the page as its outcome says. */
  lemma StepSpec(g: PageGroups, pt: Point, classify: Classifier)
    requires WellFormed(g) && classify(pt).Ok?
    ensures Step(Ok(g), pt, classify).Ok?
    ensures var g' := Step(Ok(g), pt, classify).value;
      && WellFormed(g')
      && g'.checked + g'.noHhId + g'.http == g.checked + g.noHhId + g.http + 1
      && GroupSizes(g'.order, g'.groups) - g'.checked == GroupSizes(g.order, g.groups) - g.checked
         - (if classify(pt).value == NoMeta then 1 else 0)
      && forall k :: IdsOf(g'.groups, k) == IdsOf(g.groups, k) + if classify(pt) == Ok(Grouped(k)) then [pt.id] else []
  {
    if classify(pt).value.Grouped? {
      InsertSpec(g.(checked := g.checked + 1), classify(pt).value.key, pt.id);
    }
  }

  /** The page runs to its end exactly when every point is classified
      without an error. */
  lemma {:induction false} GroupOk(pts: seq<Point>, classify: Classifier)
    ensures Group(pts, classify).Ok? <==> forall i :: 0 <= i < |pts| ==> classify(pts[i]).Ok?
    decreases |pts|
  {
    if pts != [] {
      var n := |pts| - 1;
      var init := pts[..n];
      GroupOk(init, classify);
      assert forall i :: 0 <= i < |init| ==> init[i] == pts[i];
    }
  }

  /** A page that runs to its end lists every point under exactly one
      counter, and each dict entry holds exactly the ids of the points
      grouped under its key, in page order. */
  lemma {:induction false} GroupSpec(pts: seq<Point>, classify: Classifier)
    requires Group(pts, classify).Ok?
    ensures var g := Group(pts, classify).value;
      && WellFormed(g)
      && g.checked + g.noHhId + g.http == |pts|
      && GroupSizes(g.order, g.groups) <= g.checked
      && (forall k :: IdsOf(g.groups, k) == Members(pts, classify, k))
    decreases |pts|
  {
    if pts != [] {
      var n := |pts| - 1;
      var init := pts[..n];
      GroupSpec(init, classify);
      var g0 := Group(init, classify).value;
      StepSpec(g0, pts[n], classify);
    }
  }

  /** The payload a group is written with. */
  function GroupPayload(key: GroupKey): Payload {
    map["professional_roles_name" := Str(key.roles), "area_name" := key.area]
  }

  /** The writes for the groups in insertion order, each in batches. */
  function GroupWrites(order: seq<GroupKey>, groups: map<GroupKey, seq<PointId>>, batch: nat): seq<Write>
    requires batch >= 1
  {
    if order == [] then []
    else Batches(IdsOf(groups, order[0]), GroupPayload(order[0]), batch) + GroupWrites(order[1..], groups, batch)
  }

  /** The ids of the groups, one group after another. */
  function AllIds(order: seq<GroupKey>, groups: map<GroupKey, seq<PointId>>): seq<PointId> {
    if order == [] then [] else IdsOf(groups, order[0]) + AllIds(order[1..], groups)
  }

  /** The writes of a page update each grouped id once, group by group, and
      `updated` grows by the number of those ids. */
  lemma {:induction false} GroupWritesCover(order: seq<GroupKey>, groups: map<GroupKey, seq<PointId>>, batch: nat)
    requires batch >= 1
    ensures Flatten(GroupWrites(order, groups, batch)) == AllIds(order, groups)
    ensures |AllIds(order, groups)| == GroupSizes(order, groups)
    decreases |order|
  {
    if order != [] {
      GroupWritesCover(order[1..], groups, batch);
      var ids := IdsOf(groups, order[0]);
      BatchesCover(ids, GroupPayload(order[0]), batch);
      FlattenConcat(Batches(ids, GroupPayload(order[0]), batch), GroupWrites(order[1..], groups, batch));
    }
  }

  /** The `for (roles_str, area_str), ids in groups.items()` loop. */
  method FlushGroups(g: PageGroups, batch: nat) returns (writes: seq<Write>, updated: nat)
    requires batch >= 1
    ensures writes == GroupWrites(g.order, g.groups, batch)
    ensures updated == GroupSizes(g.order, g.groups)
  {
    writes, updated := [], 0;
    var i := 0;
    while i < |g.order|
      invariant i <= |g.order|
      invariant writes + GroupWrites(g.order[i..], g.groups, batch) == GroupWrites(g.order, g.groups, batch)
      invariant updated + GroupSizes(g.order[i..], g.groups) == GroupSizes(g.order, g.groups)
    {
      var key := g.order[i];
      assert g.order[i..][1..] == g.order[i + 1..];
      var ids := IdsOf(g.groups, key);
      var w := FlushPayload(ids, GroupPayload(key), batch);
      ConcatAssoc(writes, w, GroupWrites(g.order[i + 1..], g.groups, batch));
      writes := writes + w;
      updated := updated + |ids|;
      i := i + 1;
    }
  }

  /** Every write of the groups carries the payload of one group and
      updates only ids of that group. */
  lemma {:induction false} GroupWritesFrom(order: seq<GroupKey>, groups: map<GroupKey, seq<PointId>>, batch: nat,
                                           i: nat, x: PointId)
    requires batch >= 1 && i < |GroupWrites(order, groups, batch)| && x in GroupWrites(order, groups, batch)[i].points
    ensures exists j :: 0 <= j < |order| && GroupWrites(order, groups, batch)[i].payload == GroupPayload(order[j])
                        && x in IdsOf(groups, order[j])
    decreases |order|
  {
    var w := GroupWrites(order, groups, batch);
    var ids := IdsOf(groups, order[0]);
    var b := Batches(ids, GroupPayload(order[0]), batch);
    BatchesShape(ids, GroupPayload(order[0]), batch);
    if i < |b| {
      assert w[i] == b[i];
      InFlatten(b, i, x);
      BatchesCover(ids, GroupPayload(order[0]), batch);
    } else {
      assert w[i] == GroupWrites(order[1..], groups, batch)[i - |b|];
      GroupWritesFrom(order[1..], groups, batch, i - |b|, x);
      var j :| 0 <= j < |order[1..]| && w[i].payload == GroupPayload(order[1..][j]) && x in IdsOf(groups, order[1..][j]);
      assert order[1..][j] == order[j + 1];
    }
  }

  /** The writes of one group. */
  function GroupBatches(groups: map<GroupKey, seq<PointId>>, batch: nat): GroupKey -> seq<Write>
    requires batch >= 1
  {
    key => Batches(IdsOf(groups, key), GroupPayload(key), batch)
  }

  /** The parts of the keys of `order`, one after another. */
  function Chunks(order: seq<GroupKey>, part: GroupKey -> seq<Write>): seq<Write> {
    if order == [] then [] else part(order[0]) + Chunks(order[1..], part)
  }

  /** Where the part of the `j`-th key starts: the length of the parts before it. */
  function Offset(order: seq<GroupKey>, part: GroupKey -> seq<Write>, j: nat): nat
    requires j <= |order|
  {
    if j == 0 then 0 else |part(order[0])| + Offset(order[1..], part, j - 1)
  }

  /** The writes of the groups are their batches, one group after another. */
  lemma {:induction false} GroupWritesChunks(order: seq<GroupKey>, groups: map<GroupKey, seq<PointId>>, batch: nat)
    requires batch >= 1
    ensures GroupWrites(order, groups, batch) == Chunks(order, GroupBatches(groups, batch))
    decreases |order|
  {
    if order != [] {
      GroupWritesChunks(order[1..], groups, batch);
    }
  }

  /** The part of the `j`-th key sits from `Offset(j)` to `Offset(j + 1)`. */
  lemma {:induction false} ChunkAt(order: seq<GroupKey>, part: GroupKey -> seq<Write>, j: nat)
    requires j < |order|
    ensures var w, a, b := Chunks(order, part), Offset(order, part, j), Offset(order, part, j + 1);
      a <= b <= |w| && w[a..b] == part(order[j])
    decreases |order|
  {
    var head, rest := part(order[0]), Chunks(order[1..], part);
    if j == 0 {
      assert Offset(order[1..], part, 0) == 0;
      assert (head + rest)[0..|head|] == head;
    } else {
      ChunkAt(order[1..], part, j - 1);
      assert order[1..][j - 1] == order[j];
      SliceShift(head, rest, Offset(order[1..], part, j - 1), Offset(order[1..], part, j));
    }
  }

  /** A slice of the second part of a concatenation, shifted by the first. */
  lemma SliceShift<T>(head: seq<T>, rest: seq<T>, a: nat, b: nat)
    requires a <= b <= |rest|
    ensures (head + rest)[|head| + a..|head| + b] == rest[a..b]
  {
  }

  /** The last part ends where the parts end. */
  lemma {:induction false} ChunksEnd(order: seq<GroupKey>, part: GroupKey -> seq<Write>)
    ensures Offset(order, part, |order|) == |Chunks(order, part)|
    decreases |order|
  {
    if order != [] {
      ChunksEnd(order[1..], part);
    }
  }

  /** The writes of a page are the groups' batches one group after another:
      the writes from `Offset(j)` to `Offset(j + 1)` update exactly the ids of
      the `j`-th group, each carrying that group's payload, and the last group
      ends where the writes end. */
  lemma GroupWritesPaired(order: seq<GroupKey>, groups: map<GroupKey, seq<PointId>>, batch: nat, j: nat)
    requires batch >= 1 && j <= |order|
    ensures var w, a := GroupWrites(order, groups, batch), Offset(order, GroupBatches(groups, batch), j);
      && a <= |w|
      && (j == |order| ==> a == |w|)
      && (j < |order| ==>
            var b := Offset(order, GroupBatches(groups, batch), j + 1);
            && a <= b <= |w|
            && Flatten(w[a..b]) == IdsOf(groups, order[j])
            && forall i :: a <= i < b ==> w[i].payload == GroupPayload(order[j]))
  {
    var part := GroupBatches(groups, batch);
    var w := GroupWrites(order, groups, batch);
    GroupWritesChunks(order, groups, batch);
    if j == |order| {
      ChunksEnd(order, part);
    } else {
      ChunkAt(order, part, j);
      ChunksEnd(order, part);
      assert part(order[j]) == Batches(IdsOf(groups, order[j]), GroupPayload(order[j]), batch);
      SegmentOf(w, Offset(order, part, j), Offset(order, part, j + 1),
                IdsOf(groups, order[j]), GroupPayload(order[j]), batch);
    }
  }

  /** A stretch of writes that is the batches of `ids` updates exactly `ids`,
      every write carrying `p`. */
  lemma SegmentOf(w: seq<Write>, a: nat, b: nat, ids: seq<PointId>, p: Payload, batch: nat)
    requires batch >= 1 && a <= b <= |w| && w[a..b] == Batches(ids, p, batch)
    ensures Flatten(w[a..b]) == ids
    ensures forall i :: a <= i < b ==> w[i].payload == p
  {
    BatchesCover(ids, p, batch);
    BatchesShape(ids, p, batch);
    SameFlatten(w[a..b], Batches(ids, p, batch));
    forall i | a <= i < b ensures w[i].payload == p {
      assert w[i] == w[a..b][i - a];
    }
  }

  lemma SameFlatten(v: seq<Write>, u: seq<Write>)
    requires v == u
    ensures Flatten(v) == Flatten(u)
  {
  }

  /** The five counters `main` prints. */
  datatype Totals = Totals(pointsSeen: nat, checked: nat, updated: nat, noHhId: nat, http: nat)

  /** The counters after one page. */
  function AddPage(tot: Totals, size: nat, g: PageGroups): Totals {
    Totals(tot.pointsSeen + size, tot.checked + g.checked, tot.updated + GroupSizes(g.order, g.groups),
      tot.noHhId + g.noHhId, tot.http + g.http)
  }

  /** How a page is split: its groups, or the error that ends the run. */
  type Splitter = seq<Point> -> Result<PageGroups, PyError>

  /** The backfill's splitter: every point of the page classified by `classify`. */
  function GroupBy(classify: Classifier): Splitter {
    pts => Group(pts, classify)
  }

  /** What a grouped page sends. */
  type Emitter = PageGroups -> seq<Write>

  /** The backfill's writes for a page, in batches of `batch`. */
  function EmitIn(batch: nat): Emitter
    requires batch >= 1
  {
    (g: PageGroups) => GroupWrites(g.order, g.groups, batch)
  }

  /** A run from the start, with all counters at zero; the backfill
      classifies with `ClassifyBy(fetch)`. */
  function Backfilling(pages: seq<seq<Point>>, classify: Classifier, batch: nat): Run<Totals>
    requires batch >= 1
  {
    RunFrom(pages, GroupBy(classify), EmitIn(batch), AddPage, 0, Totals(0, 0, 0, 0, 0), [])
  }

  /** The scroll reads the pages up to the first empty one. The run fails
      exactly when one of them fails to group, and then with the error of the
      first that fails, having sent the writes of the pages before it;
      otherwise it sends the writes of every page it read, in page order. */
  lemma BackfillWrites(pages: seq<seq<Point>>, classify: Classifier, batch: nat)
    requires batch >= 1
    ensures var run, n, emit := Backfilling(pages, classify, batch), Scrolled(pages), EmitIn(batch);
      && (run.outcome.Ok? <==> forall j :: 0 <= j < n ==> Group(pages[j], classify).Ok?)
      && (run.outcome.Ok? ==> run.writes == Sent(pages, GroupBy(classify), emit, n))
      && (run.outcome.Err? ==> exists j: nat :: j < n && FailsAt(pages, GroupBy(classify), emit, run, j))
  {
    RunWrites(pages, GroupBy(classify), EmitIn(batch), AddPage, Totals(0, 0, 0, 0, 0));
    assert forall j :: 0 <= j < |pages| ==> GroupBy(classify)(pages[j]) == Group(pages[j], classify);
  }

  /** Some point of some page has id `x` and is grouped under `key`. */
  ghost predicate GroupedOn(pages: seq<seq<Point>>, classify: Classifier, x: PointId, key: GroupKey) {
    exists j, m :: 0 <= j < |pages| && 0 <= m < |pages[j]| && pages[j][m].id == x
                   && classify(pages[j][m]) == Ok(Grouped(key))
  }

  /** Every id a write updates was grouped, on one of the pages, under the
      key whose roles and area the write carries. */
  ghost predicate Justified(writes: seq<Write>, pages: seq<seq<Point>>, classify: Classifier) {
    forall i, x :: 0 <= i < |writes| && x in writes[i].points ==>
      exists key :: writes[i].payload == GroupPayload(key) && GroupedOn(pages, classify, x, key)
  }

  lemma {:induction false} MembersWitness(pts: seq<Point>, classify: Classifier, key: GroupKey, x: PointId)
    requires x in Members(pts, classify, key)
    ensures exists m :: 0 <= m < |pts| && pts[m].id == x && classify(pts[m]) == Ok(Grouped(key))
    decreases |pts|
  {
    var init := pts[..|pts| - 1];
    if x in Members(init, classify, key) {
      MembersWitness(init, classify, key, x);
      var m :| 0 <= m < |init| && init[m].id == x && classify(init[m]) == Ok(Grouped(key));
      assert pts[m] == init[m];
    }
  }

  lemma PageJustified(pages: seq<seq<Point>>, classify: Classifier, batch: nat, j: nat)
    requires batch >= 1 && j < |pages|
    ensures Justified(PageSent(GroupBy(classify)(pages[j]), EmitIn(batch)), pages, classify)
  {
    var r := Group(pages[j], classify);
    assert GroupBy(classify)(pages[j]) == r;
    if r.Ok? {
      var g := r.value;
      var w := GroupWrites(g.order, g.groups, batch);
      assert EmitIn(batch)(g) == w;
      GroupSpec(pages[j], classify);
      forall i, x | 0 <= i < |w| && x in w[i].points
        ensures exists key :: w[i].payload == GroupPayload(key) && GroupedOn(pages, classify, x, key)
      {
        GroupWritesFrom(g.order, g.groups, batch, i, x);
        var k :| 0 <= k < |g.order| && w[i].payload == GroupPayload(g.order[k]) && x in IdsOf(g.groups, g.order[k]);
        MembersWitness(pages[j], classify, g.order[k], x);
      }
    }
  }

  lemma JustifiedConcat(a: seq<Write>, b: seq<Write>, pages: seq<seq<Point>>, classify: Classifier)
    requires Justified(a, pages, classify) && Justified(b, pages, classify)
    ensures Justified(a + b, pages, classify)
  {
    forall i | |a| <= i < |a + b| ensures (a + b)[i] == b[i - |a|] { }
  }

  /** Every page's writes are justified by the pages. */
  ghost predicate PagesJustify(pages: seq<seq<Point>>, split: Splitter, emit: Emitter, classify: Classifier) {
    forall j :: 0 <= j < |pages| ==> Justified(PageSent(split(pages[j]), emit), pages, classify)
  }

  lemma {:induction false} SentJustified(pages: seq<seq<Point>>, split: Splitter, emit: Emitter,
                                         classify: Classifier, n: nat)
    requires n <= |pages| && PagesJustify(pages, split, emit, classify)
    ensures Justified(Sent(pages, split, emit, n), pages, classify)
    decreases n
  {
    if n > 0 {
      SentJustified(pages, split, emit, classify, n - 1);
      JustifiedConcat(Sent(pages, split, emit, n - 1), PageSent(split(pages[n - 1]), emit), pages, classify);
    }
  }

  /** However the run ends, every id it updates was grouped, on a page it
      read, under the roles and area written to it. */
  lemma BackfillJustified(pages: seq<seq<Point>>, classify: Classifier, batch: nat)
    requires batch >= 1
    ensures Justified(Backfilling(pages, classify, batch).writes, pages[..Scrolled(pages)], classify)
  {
    var run, split, emit := Backfilling(pages, classify, batch), GroupBy(classify), EmitIn(batch);
    var n := Scrolled(pages);
    var read := pages[..n];
    BackfillWrites(pages, classify, batch);
    assert PagesJustify(read, split, emit, classify) by {
      forall j | 0 <= j < |read| ensures Justified(PageSent(split(read[j]), emit), read, classify) {
        PageJustified(read, classify, batch, j);
      }
    }
    if run.outcome.Ok? {
      SentPrefix(pages, split, emit, n, n);
      SentJustified(read, split, emit, classify, n);
    } else {
      var j: nat :| j < n && FailsAt(pages, split, emit, run, j);
      SentPrefix(pages, split, emit, j, n);
      SentJustified(read, split, emit, classify, j);
    }
  }

  /** The printed counters add up: every point seen is checked or skipped
      for one of the two reasons, and no more ids are updated than checked. */
  predicate Balanced(tot: Totals) {
    tot.pointsSeen == tot.checked + tot.noHhId + tot.http && tot.updated <= tot.checked
  }

  /** A page of `size` points is counted consistently. */
  predicate PageBalanced(g: PageGroups, size: nat) {
    g.checked + g.noHhId + g.http == size && GroupSizes(g.order, g.groups) <= g.checked
  }

  /** Every page the splitter accepts is counted consistently. */
  ghost predicate SplitsBalanced(pages: seq<seq<Point>>, split: Splitter) {
    forall j :: 0 <= j < |pages| && split(pages[j]).Ok? ==> PageBalanced(split(pages[j]).value, |pages[j]|)
  }

  lemma {:induction false} RunFromBalanced(pages: seq<seq<Point>>, split: Splitter, emit: Emitter,
                                           k: nat, tot: Totals, writes: seq<Write>)
    requires SplitsBalanced(pages, split) && Balanced(tot)
    ensures var run := RunFrom(pages, split, emit, AddPage, k, tot, writes);
      run.outcome.Ok? ==> Balanced(run.outcome.value)
    decreases |pages| - k
  {
    var pts := PageAt(pages, k);
    if pts != [] {
      assert pts == pages[k];
      match split(pts)
      case Err(_) =>
      case Ok(g) =>
        if k + 1 < |pages| {
          RunFromBalanced(pages, split, emit, k + 1, AddPage(tot, |pts|, g), writes + emit(g));
        }
    }
  }

  lemma GroupByBalanced(pages: seq<seq<Point>>, classify: Classifier)
    ensures SplitsBalanced(pages, GroupBy(classify))
  {
    forall j | 0 <= j < |pages| && GroupBy(classify)(pages[j]).Ok?
      ensures PageBalanced(GroupBy(classify)(pages[j]).value, |pages[j]|)
    {
      GroupSpec(pages[j], classify);
    }
  }

  /** A run that ends normally prints balanced counters. */
  lemma BackfillBalanced(pages: seq<seq<Point>>, classify: Classifier, batch: nat)
    requires batch >= 1
    ensures var run := Backfilling(pages, classify, batch);
      run.outcome.Ok? ==> Balanced(run.outcome.value)
  {
    GroupByBalanced(pages, classify);
    RunFromBalanced(pages, GroupBy(classify), EmitIn(batch), 0, Totals(0, 0, 0, 0, 0), []);
  }

  /** `main()` of the backfill: scroll page by page until a page is empty or
      the scroll reports no next offset; group each page with `classify`
      (`ClassifyBy(fetch)`) and write each group back in batches of `batch` ids. */
  method BackfillAll(pages: seq<seq<Point>>, classify: Classifier, batch: nat) returns (run: Run<Totals>)
    requires batch >= 1
    ensures run == Backfilling(pages, classify, batch)
  {
    var tot := Totals(0, 0, 0, 0, 0);
    var writes: seq<Write> := [];
    var k := 0;
    while true
      invariant k <= |pages|
      invariant RunFrom(pages, GroupBy(classify), EmitIn(batch), AddPage, k, tot, writes) == Backfilling(pages, classify, batch)
      decreases |pages| - k
    {
      var pts := PageAt(pages, k);
      if pts == [] {
        return Run(Ok(tot), writes);
      }
      RunFromPage(pages, GroupBy(classify), EmitIn(batch), AddPage, k, tot, writes);
      var r := GroupPage(pts, classify);
      assert r == GroupBy(classify)(pts);
      if r.Err? {
        return Run(Err(r.error), writes);
      }
      var g := r.value;
      var sent, updated := FlushGroups(g, batch);
      assert sent == EmitIn(batch)(g);
      tot := AddPage(tot, |pts|, g);
      writes := writes + sent;
      if k + 1 >= |pages| {
        return Run(Ok(tot), writes);
      }
      k := k + 1;
    }
  }
}
