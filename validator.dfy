/**
  The archive validator: for every point of the collection it looks the vacancy
  up on hh.ru, and marks it active or inactive. Scroll pages arrive in order;
  the ids of each page are split into an activate list and a deactivate list,
  which are written back in batches before the next page is read.
 */
module Validator {
  import opened Wrappers
  import opened PyText
  import opened Json
  import opened HhId
  import opened PointStore
  import opened HhApi
  import opened Batching
  import opened Scroll

  /** `(inactive, reason)` as `check_archived` returns it. */
  datatype Decision = Decision(inactive: bool, reason: string)

  /** The body is a JSON object whose `archived` field is truthy. */
  predicate ArchivedBody(body: Option<Json>) {
    body.Some? && body.value.Object? && Truthy(Get(body.value.fields, "archived"))
  }

  /** `check_archived(hc, hh_id)` given what the request produced. */
  function CheckArchived(reply: Reply): (r: Result<Decision, PyError>)
    ensures r.Ok? <==> (reply.Response? &&
      (reply.status == 404 || (Success(reply.status) && reply.body.Some? && reply.body.value.Object?)))
    ensures r.Ok? ==> (r.value.inactive <==> reply.status == 404 || ArchivedBody(reply.body))
    ensures r.Ok? ==> (r.value.reason ==
      if reply.status == 404 then "404" else if r.value.inactive then "archived_true" else "active")
  {
    if reply.Response? && reply.status == 404 then Ok(Decision(true, "404"))
    else
      match Body(reply)
      case Err(e) => Err(e)
      case Ok(data) =>
        if Truthy(Get(data, "archived")) then Ok(Decision(true, "archived_true"))
        else Ok(Decision(false, "active"))
  }

  /** Where a point ends up on its page. */
  datatype Verdict = Skip | Activate | Deactivate

  /** One iteration of the inner loop of `main`. Reading the URL can raise,
      which ends the run; a failing lookup only skips the point. */
  function PointVerdict(pt: Point, fetch: string -> Reply): Result<Verdict, PyError> {
    match TextField(pt.payload, UrlKeys, "")
    case Err(e) => Err(e)
    case Ok(url) =>
      match ExtractHhId(url)
      case None => Ok(Skip)
      case Some(hh) =>
        match CheckArchived(fetch(hh))
        case Err(_) => Ok(Skip)
        case Ok(d) => Ok(if d.inactive then Deactivate else Activate)
  }

  /** Only an unreadable URL ends the run. A point is checked exactly when its
      URL holds an hh.ru id and the lookup succeeds, and it is deactivated
      exactly when the lookup says the vacancy is gone or archived. */
  lemma PointVerdictSpec(pt: Point, fetch: string -> Reply)
    ensures PointVerdict(pt, fetch).Err? <==> TextField(pt.payload, UrlKeys, "").Err?
    ensures PointVerdict(pt, fetch).Ok? ==>
      var id := ExtractHhId(TextField(pt.payload, UrlKeys, "").value);
      (PointVerdict(pt, fetch).value != Skip <==> id.Some? && CheckArchived(fetch(id.value)).Ok?) &&
      (PointVerdict(pt, fetch).value == Deactivate <==>
        id.Some? && CheckArchived(fetch(id.value)).Ok? && CheckArchived(fetch(id.value)).value.inactive)
  {
  }

  /** The lists and counters a page produces. */
  datatype PageTally = PageTally(activate: seq<PointId>, deactivate: seq<PointId>, checked: nat, skipped: nat)

  /** How each point of a page is judged. */
  type Judge = Point -> Result<Verdict, PyError>

  /** The judge the validator uses for a given lookup. */
  function JudgeBy(fetch: string -> Reply): Judge {
    pt => PointVerdict(pt, fetch)
  }

  /** The tally after one more point. */
  function Step(acc: Result<PageTally, PyError>, pt: Point, judge: Judge): Result<PageTally, PyError> {
    match acc
    case Err(e) => Err(e)
    case Ok(t) =>
      match judge(pt)
      case Err(e) => Err(e)
      case Ok(Skip) => Ok(t.(skipped := t.skipped + 1))
      case Ok(Activate) => Ok(t.(activate := t.activate + [pt.id], checked := t.checked + 1))
      case Ok(Deactivate) => Ok(t.(deactivate := t.deactivate + [pt.id], checked := t.checked + 1))
  }

  /** The page's tally after the points `pts`, or the error that ended the run. */
  function Tally(pts: seq<Point>, judge: Judge): Result<PageTally, PyError> {
    if pts == [] then Ok(PageTally([], [], 0, 0))
    else Step(Tally(pts[..|pts| - 1], judge), pts[|pts| - 1], judge)
  }

  lemma TallyPrefix(pts: seq<Point>, judge: Judge, i: nat)
    requires i < |pts|
    ensures Tally(pts[..i + 1], judge) == Step(Tally(pts[..i], judge), pts[i], judge)
  {
    assert pts[..i + 1][..i] == pts[..i];
  }

  /** Reference definition: the ids of the points with verdict `v`, in page order. */
  function Selected(pts: seq<Point>, judge: Judge, v: Verdict): seq<PointId> {
    if pts == [] then []
    else (if judge(pts[0]) == Ok(v) then [pts[0].id] else []) + Selected(pts[1..], judge, v)
  }

  lemma {:induction false} SelectedAppend(pts: seq<Point>, pt: Point, judge: Judge, v: Verdict)
    ensures Selected(pts + [pt], judge, v) ==
      Selected(pts, judge, v) + (if judge(pt) == Ok(v) then [pt.id] else [])
    decreases |pts|
  {
    if pts != [] {
      assert (pts + [pt])[1..] == pts[1..] + [pt];
      SelectedAppend(pts[1..], pt, judge, v);
    }
  }

  /** The page runs to its end exactly when no point's URL is unreadable. Then
      every point lands in exactly one of the skipped count, the activate list
      and the deactivate list, in page order. */
  lemma {:induction false} TallySplits(pts: seq<Point>, judge: Judge)
    ensures Tally(pts, judge).Ok? <==> forall i :: 0 <= i < |pts| ==> judge(pts[i]).Ok?
    ensures Tally(pts, judge).Ok? ==>
      var t := Tally(pts, judge).value;
      && t.activate == Selected(pts, judge, Activate)
      && t.deactivate == Selected(pts, judge, Deactivate)
      && t.skipped == |Selected(pts, judge, Skip)|
      && t.checked == |t.activate| + |t.deactivate|
      && t.checked + t.skipped == |pts|
    decreases |pts|
  {
    if pts != [] {
      var init := pts[..|pts| - 1];
      var pt := pts[|pts| - 1];
      assert init + [pt] == pts;
      TallySplits(init, judge);
      SelectedAppend(init, pt, judge, Activate);
      SelectedAppend(init, pt, judge, Deactivate);
      SelectedAppend(init, pt, judge, Skip);
      if Tally(pts, judge).Ok? {
        assert forall i :: 0 <= i < |init| ==> init[i] == pts[i];
      }
      if forall i :: 0 <= i < |pts| ==> judge(pts[i]).Ok? {
        assert forall i :: 0 <= i < |init| ==> judge(init[i]).Ok? by {
          forall i | 0 <= i < |init| ensures judge(init[i]).Ok? {
            assert init[i] == pts[i];
          }
        }
      }
    }
  }

  /** Once a prefix of the page fails, the whole page fails. */
  lemma {:induction false} TallyStaysErr(pts: seq<Point>, judge: Judge, n: nat)
    requires n <= |pts| && Tally(pts[..n], judge).Err?
    ensures Tally(pts, judge) == Tally(pts[..n], judge)
    decreases |pts| - n
  {
    if n < |pts| {
      assert pts[..n + 1][..n] == pts[..n];
      TallyStaysErr(pts, judge, n + 1);
    } else {
      assert pts[..n] == pts;
    }
  }

  /** The `for pt in points` loop of `main` on one page; `judge` is the loop
      body's decision for one point (`JudgeBy(fetch)` in the validator). */
  method SplitPage(pts: seq<Point>, judge: Judge) returns (r: Result<PageTally, PyError>)
    ensures r == Tally(pts, judge)
  {
    var activate: seq<PointId> := [];
    var deactivate: seq<PointId> := [];
    var checked, skipped := 0, 0;
    var i := 0;
    while i < |pts|
      invariant i <= |pts|
      invariant Tally(pts[..i], judge) == Ok(PageTally(activate, deactivate, checked, skipped))
    {
      TallyPrefix(pts, judge, i);
      var pt := pts[i];
      match judge(pt) {
        case Err(e) =>
          TallyStaysErr(pts, judge, i + 1);
          return Err(e);
        case Ok(Skip) =>
          skipped := skipped + 1;
        case Ok(Activate) =>
          checked := checked + 1;
          activate := activate + [pt.id];
        case Ok(Deactivate) =>
          checked := checked + 1;
          deactivate := deactivate + [pt.id];
      }
      i := i + 1;
    }
    assert pts[..|pts|] == pts;
    return Ok(PageTally(activate, deactivate, checked, skipped));
  }

  /** The payload written to ids found active, with the run's timestamp. */
  function ActivePayload(now: string): Payload {
    map["is_active" := Bool(true), "archived" := Bool(false), "archived_checked_at" := Str(now)]
  }

  /** The payload written to ids found archived or gone, with the run's timestamp. */
  function InactivePayload(now: string): Payload {
    map["is_active" := Bool(false), "archived" := Bool(true), "archived_checked_at" := Str(now)]
  }

  /** The five counters `main` prints. */
  datatype Totals = Totals(points: nat, checked: nat, activated: nat, deactivated: nat, skipped: nat)

  /** The writes after one page: the activate list, then the deactivate list. */
  function PageWrites(t: PageTally, now: string, batch: nat): seq<Write>
    requires batch >= 1
  {
    (if t.activate != [] then Batches(t.activate, ActivePayload(now), batch) else [])
    + (if t.deactivate != [] then Batches(t.deactivate, InactivePayload(now), batch) else [])
  }

  /** The two `flush_payload` calls after a page: the active ids, then the
      inactive ones, each only when its list is non-empty. */
  method FlushPage(t: PageTally, now: string, batch: nat) returns (sent: seq<Write>)
    requires batch >= 1
    ensures sent == PageWrites(t, now, batch)
  {
    var sentActive: seq<Write> := [];
    if t.activate != [] {
      sentActive := FlushPayload(t.activate, ActivePayload(now), batch);
    }
    var sentInactive: seq<Write> := [];
    if t.deactivate != [] {
      sentInactive := FlushPayload(t.deactivate, InactivePayload(now), batch);
    }
    sent := sentActive + sentInactive;
  }

  /** The counters after one page. */
  function AddPage(tot: Totals, size: nat, t: PageTally): Totals {
    Totals(tot.points + size, tot.checked + t.checked, tot.activated + |t.activate|,
      tot.deactivated + |t.deactivate|, tot.skipped + t.skipped)
  }

  /** How a page is split: its tally, or the error that ends the run. */
  type Splitter = seq<Point> -> Result<PageTally, PyError>

  /** The validator's splitter: every point of the page judged by `judge`. */
  function SplitBy(judge: Judge): Splitter {
    pts => Tally(pts, judge)
  }

  /** What a split page sends. */
  type Emitter = PageTally -> seq<Write>

  /** The validator's writes for a page, stamped with `now`, in batches of `batch`. */
  function EmitAt(now: string, batch: nat): Emitter
    requires batch >= 1
  {
    t => PageWrites(t, now, batch)
  }

  /** A run from the start, with all counters at zero; the validator judges
      with `JudgeBy(fetch)`. */
  function Validation(pages: seq<seq<Point>>, judge: Judge, now: string, batch: nat): Run<Totals>
    requires batch >= 1
  {
    RunFrom(pages, SplitBy(judge), EmitAt(now, batch), AddPage, 0, Totals(0, 0, 0, 0, 0), [])
  }

  /** The counters are consistent: `points = checked + skipped`, and
      `checked = activated + deactivated`. */
  predicate Balanced(tot: Totals) {
    tot.points == tot.checked + tot.skipped && tot.checked == tot.activated + tot.deactivated
  }

  /** Every write marks ids active or inactive with the run's timestamp. */
  predicate Marks(writes: seq<Write>, now: string) {
    forall j :: 0 <= j < |writes| ==>
      writes[j].payload == ActivePayload(now) || writes[j].payload == InactivePayload(now)
  }

  lemma PageWritesMark(t: PageTally, now: string, batch: nat)
    requires batch >= 1
    ensures Marks(PageWrites(t, now, batch), now)
  {
    BatchesShape(t.activate, ActivePayload(now), batch);
    BatchesShape(t.deactivate, InactivePayload(now), batch);
    var a: seq<Write> := if t.activate != [] then Batches(t.activate, ActivePayload(now), batch) else [];
    var d: seq<Write> := if t.deactivate != [] then Batches(t.deactivate, InactivePayload(now), batch) else [];
    forall j | 0 <= j < |a + d|
      ensures (a + d)[j].payload == ActivePayload(now) || (a + d)[j].payload == InactivePayload(now)
    {
      if j >= |a| {
        assert (a + d)[j] == d[j - |a|];
      }
    }
  }

  /** A page's writes update exactly its activate list and then its
      deactivate list, each id once. */
  lemma PageWritesCover(t: PageTally, now: string, batch: nat)
    requires batch >= 1
    ensures Flatten(PageWrites(t, now, batch)) == t.activate + t.deactivate
  {
    var a: seq<Write> := if t.activate != [] then Batches(t.activate, ActivePayload(now), batch) else [];
    var d: seq<Write> := if t.deactivate != [] then Batches(t.deactivate, InactivePayload(now), batch) else [];
    BatchesCover(t.activate, ActivePayload(now), batch);
    BatchesCover(t.deactivate, InactivePayload(now), batch);
    FlattenConcat(a, d);
  }

  /** A page's writes split where the batches of the activate list end.
      Before that point every write carries the active marking, and together
      those writes update exactly the activate list; from there on every write
      carries the inactive marking, and together they update exactly the
      deactivate list. */
  lemma PageWritesPaired(t: PageTally, now: string, batch: nat)
    requires batch >= 1
    ensures var w, n := PageWrites(t, now, batch), CeilDiv(|t.activate|, batch);
      && n <= |w|
      && Flatten(w[..n]) == t.activate && Flatten(w[n..]) == t.deactivate
      && (forall i :: 0 <= i < n ==> w[i].payload == ActivePayload(now))
      && (forall i :: n <= i < |w| ==> w[i].payload == InactivePayload(now))
  {
    var a: seq<Write> := if t.activate != [] then Batches(t.activate, ActivePayload(now), batch) else [];
    var d: seq<Write> := if t.deactivate != [] then Batches(t.deactivate, InactivePayload(now), batch) else [];
    BatchesShape(t.activate, ActivePayload(now), batch);
    BatchesShape(t.deactivate, InactivePayload(now), batch);
    BatchesCover(t.activate, ActivePayload(now), batch);
    BatchesCover(t.deactivate, InactivePayload(now), batch);
    assert CeilDiv(0, batch) == 0;
    var w := a + d;
    assert w[..|a|] == a && w[|a|..] == d;
    forall i | |a| <= i < |w| ensures w[i].payload == InactivePayload(now) {
      assert w[i] == d[i - |a|];
    }
  }

  /** The scroll reads the pages up to the first empty one. The run fails
      exactly when one of them fails to split, and then with the error of the
      first that fails, having sent the writes of the pages before it;
      otherwise it sends the writes of every page it read, in page order. */
  lemma ValidationWrites(pages: seq<seq<Point>>, judge: Judge, now: string, batch: nat)
    requires batch >= 1
    ensures var run, n, emit := Validation(pages, judge, now, batch), Scrolled(pages), EmitAt(now, batch);
      && (run.outcome.Ok? <==> forall j :: 0 <= j < n ==> Tally(pages[j], judge).Ok?)
      && (run.outcome.Ok? ==> run.writes == Sent(pages, SplitBy(judge), emit, n))
      && (run.outcome.Err? ==> exists j: nat :: j < n && FailsAt(pages, SplitBy(judge), emit, run, j))
  {
    RunWrites(pages, SplitBy(judge), EmitAt(now, batch), AddPage, Totals(0, 0, 0, 0, 0));
    assert forall j :: 0 <= j < |pages| ==> SplitBy(judge)(pages[j]) == Tally(pages[j], judge);
  }

  /** Some point of some page has id `x` and is judged `v`. */
  ghost predicate JudgedOn(pages: seq<seq<Point>>, judge: Judge, x: PointId, v: Verdict) {
    exists j, m :: 0 <= j < |pages| && 0 <= m < |pages[j]| && pages[j][m].id == x && judge(pages[j][m]) == Ok(v)
  }

  /** Every id a write marks active was judged active on one of the pages,
      and every id it marks inactive was judged inactive. */
  ghost predicate Justified(writes: seq<Write>, pages: seq<seq<Point>>, judge: Judge, now: string) {
    forall i, x :: 0 <= i < |writes| && x in writes[i].points ==>
      && (writes[i].payload == ActivePayload(now) ==> JudgedOn(pages, judge, x, Activate))
      && (writes[i].payload == InactivePayload(now) ==> JudgedOn(pages, judge, x, Deactivate))
  }

  lemma {:induction false} SelectedWitness(pts: seq<Point>, judge: Judge, v: Verdict, x: PointId)
    requires x in Selected(pts, judge, v)
    ensures exists m :: 0 <= m < |pts| && pts[m].id == x && judge(pts[m]) == Ok(v)
    decreases |pts|
  {
    if judge(pts[0]) != Ok(v) || x != pts[0].id {
      SelectedWitness(pts[1..], judge, v, x);
      var m :| 0 <= m < |pts[1..]| && pts[1..][m].id == x && judge(pts[1..][m]) == Ok(v);
      assert pts[m + 1] == pts[1..][m];
    }
  }

  /** Writes that together update the points of page `j` judged `v` update
      only ids judged `v`. */
  lemma SegmentJudged(ws: seq<Write>, pages: seq<seq<Point>>, judge: Judge, j: nat, v: Verdict)
    requires j < |pages| && Flatten(ws) == Selected(pages[j], judge, v)
    ensures forall i, x :: 0 <= i < |ws| && x in ws[i].points ==> JudgedOn(pages, judge, x, v)
  {
    forall i, x | 0 <= i < |ws| && x in ws[i].points ensures JudgedOn(pages, judge, x, v) {
      InFlatten(ws, i, x);
      SelectedWitness(pages[j], judge, v, x);
    }
  }

  /** Writes whose first `n` carry the active marking and update ids judged
      active, and whose others carry the inactive marking and update ids
      judged inactive, are justified. */
  lemma JoinSegments(w: seq<Write>, n: nat, pages: seq<seq<Point>>, judge: Judge, now: string)
    requires n <= |w|
    requires forall i :: 0 <= i < n ==> w[i].payload == ActivePayload(now)
    requires forall i :: n <= i < |w| ==> w[i].payload == InactivePayload(now)
    requires forall i, x :: 0 <= i < |w[..n]| && x in w[..n][i].points ==> JudgedOn(pages, judge, x, Activate)
    requires forall i, x :: 0 <= i < |w[n..]| && x in w[n..][i].points ==> JudgedOn(pages, judge, x, Deactivate)
    ensures Justified(w, pages, judge, now)
  {
    assert ActivePayload(now)["is_active"] != InactivePayload(now)["is_active"];
    forall i, x | 0 <= i < |w| && x in w[i].points
      ensures w[i].payload == ActivePayload(now) ==> JudgedOn(pages, judge, x, Activate)
      ensures w[i].payload == InactivePayload(now) ==> JudgedOn(pages, judge, x, Deactivate)
    {
      if i < n {
        assert w[..n][i] == w[i];
      } else {
        assert w[n..][i - n] == w[i];
      }
    }
  }

  lemma PageJustified(pages: seq<seq<Point>>, judge: Judge, now: string, batch: nat, j: nat, t: PageTally)
    requires batch >= 1 && j < |pages|
    requires t.activate == Selected(pages[j], judge, Activate) && t.deactivate == Selected(pages[j], judge, Deactivate)
    ensures Justified(PageWrites(t, now, batch), pages, judge, now)
  {
    var w, n := PageWrites(t, now, batch), CeilDiv(|t.activate|, batch);
    PageWritesPaired(t, now, batch);
    SegmentJudged(w[..n], pages, judge, j, Activate);
    SegmentJudged(w[n..], pages, judge, j, Deactivate);
    JoinSegments(w, n, pages, judge, now);
  }

  lemma JustifiedConcat(a: seq<Write>, b: seq<Write>, pages: seq<seq<Point>>, judge: Judge, now: string)
    requires Justified(a, pages, judge, now) && Justified(b, pages, judge, now)
    ensures Justified(a + b, pages, judge, now)
  {
    forall i | |a| <= i < |a + b| ensures (a + b)[i] == b[i - |a|] { }
  }

  /** The writes a page sends are justified by that page. */
  lemma SplitJustified(pages: seq<seq<Point>>, judge: Judge, now: string, batch: nat, j: nat)
    requires batch >= 1 && j < |pages|
    ensures Justified(PageSent(SplitBy(judge)(pages[j]), EmitAt(now, batch)), pages, judge, now)
  {
    assert SplitBy(judge)(pages[j]) == Tally(pages[j], judge);
    if Tally(pages[j], judge).Ok? {
      assert EmitAt(now, batch)(Tally(pages[j], judge).value) == PageWrites(Tally(pages[j], judge).value, now, batch);
      TallySplits(pages[j], judge);
      PageJustified(pages, judge, now, batch, j, Tally(pages[j], judge).value);
    }
  }

  /** Every page's writes are justified by the pages. */
  ghost predicate PagesJustify(pages: seq<seq<Point>>, split: Splitter, emit: Emitter, judge: Judge, now: string) {
    forall j :: 0 <= j < |pages| ==> Justified(PageSent(split(pages[j]), emit), pages, judge, now)
  }

  lemma {:induction false} SentJustified(pages: seq<seq<Point>>, split: Splitter, emit: Emitter,
                                         judge: Judge, now: string, n: nat)
    requires n <= |pages| && PagesJustify(pages, split, emit, judge, now)
    ensures Justified(Sent(pages, split, emit, n), pages, judge, now)
    decreases n
  {
    if n > 0 {
      SentJustified(pages, split, emit, judge, now, n - 1);
      JustifiedConcat(Sent(pages, split, emit, n - 1), PageSent(split(pages[n - 1]), emit), pages, judge, now);
    }
  }

  /** However the run ends, every id it marks active was judged active, and
      every id it marks inactive was judged inactive, on a page it read. */
  lemma ValidationJustified(pages: seq<seq<Point>>, judge: Judge, now: string, batch: nat)
    requires batch >= 1
    ensures Justified(Validation(pages, judge, now, batch).writes, pages[..Scrolled(pages)], judge, now)
  {
    var run, split, emit := Validation(pages, judge, now, batch), SplitBy(judge), EmitAt(now, batch);
    var n := Scrolled(pages);
    var read := pages[..n];
    ValidationWrites(pages, judge, now, batch);
    assert PagesJustify(read, split, emit, judge, now) by {
      forall j | 0 <= j < |read| ensures Justified(PageSent(split(read[j]), emit), read, judge, now) {
        SplitJustified(read, judge, now, batch, j);
      }
    }
    if run.outcome.Ok? {
      SentPrefix(pages, split, emit, n, n);
      SentJustified(read, split, emit, judge, now, n);
    } else {
      var j: nat :| j < n && FailsAt(pages, split, emit, run, j);
      SentPrefix(pages, split, emit, j, n);
      SentJustified(read, split, emit, judge, now, j);
    }
  }

  /** The tally of a page of `size` points has consistent counters. */
  predicate TallyBalanced(t: PageTally, size: nat) {
    t.checked + t.skipped == size && t.checked == |t.activate| + |t.deactivate|
  }

  /** Every page the splitter accepts is split with consistent counters. */
  ghost predicate SplitsBalanced(pages: seq<seq<Point>>, split: Splitter) {
    forall j :: 0 <= j < |pages| && split(pages[j]).Ok? ==> TallyBalanced(split(pages[j]).value, |pages[j]|)
  }

  /** Every page's writes mark ids active or inactive with `now`. */
  ghost predicate EmitsMarks(emit: Emitter, now: string) {
    forall t :: Marks(emit(t), now)
  }

  lemma MarksConcat(a: seq<Write>, b: seq<Write>, now: string)
    requires Marks(a, now) && Marks(b, now)
    ensures Marks(a + b, now)
  {
    forall i | |a| <= i < |a + b| ensures (a + b)[i] == b[i - |a|] { }
  }

  lemma {:induction false} RunFromBalanced(pages: seq<seq<Point>>, split: Splitter, emit: Emitter, now: string,
                                           k: nat, tot: Totals, writes: seq<Write>)
    requires SplitsBalanced(pages, split) && EmitsMarks(emit, now) && Balanced(tot) && Marks(writes, now)
    ensures var run := RunFrom(pages, split, emit, AddPage, k, tot, writes);
      (run.outcome.Ok? ==> Balanced(run.outcome.value)) && Marks(run.writes, now)
    decreases |pages| - k
  {
    var pts := PageAt(pages, k);
    if pts != [] {
      assert pts == pages[k];
      match split(pts)
      case Err(_) =>
      case Ok(t) =>
        MarksConcat(writes, emit(t), now);
        if k + 1 < |pages| {
          RunFromBalanced(pages, split, emit, now, k + 1, AddPage(tot, |pts|, t), writes + emit(t));
        }
    }
  }

  lemma SplitByBalanced(pages: seq<seq<Point>>, judge: Judge)
    ensures SplitsBalanced(pages, SplitBy(judge))
  {
    forall j | 0 <= j < |pages| && SplitBy(judge)(pages[j]).Ok?
      ensures TallyBalanced(SplitBy(judge)(pages[j]).value, |pages[j]|)
    {
      TallySplits(pages[j], judge);
    }
  }

  lemma EmitAtMarks(now: string, batch: nat)
    requires batch >= 1
    ensures EmitsMarks(EmitAt(now, batch), now)
  {
    forall t ensures Marks(EmitAt(now, batch)(t), now) {
      PageWritesMark(t, now, batch);
    }
  }

  lemma RunBalanced(pages: seq<seq<Point>>, split: Splitter, emit: Emitter, now: string)
    requires SplitsBalanced(pages, split) && EmitsMarks(emit, now)
    ensures var run := RunFrom(pages, split, emit, AddPage, 0, Totals(0, 0, 0, 0, 0), []);
      (run.outcome.Ok? ==> Balanced(run.outcome.value)) && Marks(run.writes, now)
  {
    RunFromBalanced(pages, split, emit, now, 0, Totals(0, 0, 0, 0, 0), []);
  }

  /** The counters of a run that ends normally are balanced, and every write
      it sends is one of the two markings, stamped with `now`. */
  lemma ValidationBalanced(pages: seq<seq<Point>>, judge: Judge, now: string, batch: nat)
    requires batch >= 1
    ensures var run := Validation(pages, judge, now, batch);
      (run.outcome.Ok? ==> Balanced(run.outcome.value)) && Marks(run.writes, now)
  {
    SplitByBalanced(pages, judge);
    EmitAtMarks(now, batch);
    RunBalanced(pages, SplitBy(judge), EmitAt(now, batch), now);
  }

  /** `main()` of the validator: scroll page by page until a page is empty or
      the scroll reports no next offset; split each page with `judge` (`JudgeBy(fetch)`)
      and write both lists back in batches of `batch` ids. */
  method Validate(pages: seq<seq<Point>>, judge: Judge, now: string, batch: nat) returns (run: Run<Totals>)
    requires batch >= 1
    ensures run == Validation(pages, judge, now, batch)
  {
    var tot := Totals(0, 0, 0, 0, 0);
    var writes: seq<Write> := [];
    var k := 0;
    while true
      invariant k <= |pages|
      invariant RunFrom(pages, SplitBy(judge), EmitAt(now, batch), AddPage, k, tot, writes) == Validation(pages, judge, now, batch)
      decreases |pages| - k
    {
      var pts := PageAt(pages, k);
      if pts == [] {
        return Run(Ok(tot), writes);
      }
      RunFromPage(pages, SplitBy(judge), EmitAt(now, batch), AddPage, k, tot, writes);
      var r := SplitPage(pts, judge);
      assert r == SplitBy(judge)(pts);
      if r.Err? {
        return Run(Err(r.error), writes);
      }
      var t := r.value;
      var sent := FlushPage(t, now, batch);
      assert sent == EmitAt(now, batch)(t);
      tot := AddPage(tot, |pts|, t);
      writes := writes + sent;
      if k + 1 >= |pages| {
        return Run(Ok(tot), writes);
      }
      k := k + 1;
    }
  }
}
