/**
  The bot's side of a search: `retrieve` walks the hits of the vector search
  in score order, keeps the first hit of every identity key and projects its
  display fields, stopping once `k` items are collected; `on_nav` moves the
  shown card by one within the stored results, and `build_nav_kb` lays out
  the keyboard under the card.
 */
module RunBot {
  import opened Wrappers
  import opened PyText
  import opened Json
  import opened PointStore

  /** A search hit: its point id, its similarity score (opaque) and its
      payload (`h.payload or {}`). */
  datatype Hit = Hit(id: PointId, score: Json, payload: Payload)

  /** One result of `retrieve`: the hit's id and score and its display fields. */
  datatype Item = Item(
    id: PointId, score: Json,
    title: Json, company: Json, experience: Json,
    description: Json, snippet: Json,
    url: string, salaryText: Json)

  /** A hit as the dedup loop sees it: its identity key and the item it adds. */
  datatype Entry = Entry(key: string, item: Item)

  const SalaryKeys: seq<string> := ["salary_text", "salary_str"]

  /** The display fields of a hit whose stripped link is `url`. */
  function Display(h: Hit, url: string): Item {
    var p := h.payload;
    Item(
      h.id, h.score,
      Or(Chain(p, TitleKeys, Str("-"))),
      Or(Chain(p, CompanyKeys, Str("-"))),
      Or([Get(p, "experience"), Str("-")]),
      Or([Get(p, "description"), Str("")]),
      Or([Get(p, "snippet"), Str("")]),
      if url != "" then url else "-",
      Or(Chain(p, SalaryKeys, Str(""))))
  }

  /** The loop body up to the dedup test: the stripped link, the stripped and
      lower-cased title and company, and the key they give. Reading a field
      whose chosen value is not a string raises AttributeError. */
  function Project(h: Hit): Result<Entry, PyError> {
    var p := h.payload;
    match TextField(p, UrlKeys, "")
    case Err(e) => Err(e)
    case Ok(url) =>
      match TextField(p, TitleKeys, "")
      case Err(e) => Err(e)
      case Ok(title) =>
        match TextField(p, CompanyKeys, "")
        case Err(e) => Err(e)
        case Ok(company) =>
          var key := if url != "" then url else Lower(title) + "::" + Lower(company);
          Ok(Entry(key, Display(h, url)))
  }

  /** The key is the link when there is one, otherwise the lower-cased title
      and company joined by `::`; either way it is never empty, so the
      `not key` test never skips a hit. A hit fails exactly when one of the
      three fields it reads fails. */
  lemma ProjectSpec(h: Hit)
    ensures Project(h).Ok? <==>
      TextField(h.payload, UrlKeys, "").Ok? &&
      TextField(h.payload, TitleKeys, "").Ok? &&
      TextField(h.payload, CompanyKeys, "").Ok?
    ensures Project(h).Ok? ==> Project(h).value.key != ""
    ensures Project(h).Ok? && TextField(h.payload, UrlKeys, "").value != "" ==>
      Project(h).value.key == TextField(h.payload, UrlKeys, "").value &&
      Project(h).value.item.url == Project(h).value.key
    ensures Project(h).Ok? && TextField(h.payload, UrlKeys, "").value == "" ==>
      Project(h).value.key ==
        Lower(TextField(h.payload, TitleKeys, "").value) + "::" + Lower(TextField(h.payload, CompanyKeys, "").value) &&
      Project(h).value.item.url == "-"
  {
    if Project(h).Ok? {
      var key := Project(h).value.key;
      if TextField(h.payload, UrlKeys, "").value == "" {
        var t, c := Lower(TextField(h.payload, TitleKeys, "").value), Lower(TextField(h.payload, CompanyKeys, "").value);
        assert key == t + "::" + c;
        assert key[|t|] == ':';
      }
    }
  }

  /** Each display field is the first truthy value of its keys, else its
      default: title, name, `-`; company, employer, `-`; experience, `-`;
      description, empty; snippet, empty; salary_text, salary_str, empty.
      The link is the stripped url, or `-` when that is empty. */
  lemma DisplaySpec(h: Hit, url: string)
    ensures var p, it := h.payload, Display(h, url);
      && it.id == h.id && it.score == h.score
      && it.title == (if Truthy(Get(p, "title")) then Get(p, "title")
                      else if Truthy(Get(p, "name")) then Get(p, "name") else Str("-"))
      && it.company == (if Truthy(Get(p, "company")) then Get(p, "company")
                        else if Truthy(Get(p, "employer")) then Get(p, "employer") else Str("-"))
      && it.experience == (if Truthy(Get(p, "experience")) then Get(p, "experience") else Str("-"))
      && it.description == (if Truthy(Get(p, "description")) then Get(p, "description") else Str(""))
      && it.snippet == (if Truthy(Get(p, "snippet")) then Get(p, "snippet") else Str(""))
      && it.url == (if url != "" then url else "-")
      && it.salaryText == (if Truthy(Get(p, "salary_text")) then Get(p, "salary_text")
                           else if Truthy(Get(p, "salary_str")) then Get(p, "salary_str") else Str(""))
  {
    var p, it := h.payload, Display(h, url);
    assert it.title == (if Truthy(Get(p, "title")) then Get(p, "title")
                        else if Truthy(Get(p, "name")) then Get(p, "name") else Str("-")) by {
      FallBack(Chain(p, TitleKeys, Str("-")));
    }
    assert it.company == (if Truthy(Get(p, "company")) then Get(p, "company")
                          else if Truthy(Get(p, "employer")) then Get(p, "employer") else Str("-")) by {
      FallBack(Chain(p, CompanyKeys, Str("-")));
    }
    assert it.salaryText == (if Truthy(Get(p, "salary_text")) then Get(p, "salary_text")
                             else if Truthy(Get(p, "salary_str")) then Get(p, "salary_str") else Str("")) by {
      FallBack(Chain(p, SalaryKeys, Str("")));
    }
  }

  /** `a or b or c` for three operands. */
  lemma FallBack(vs: seq<Json>)
    requires |vs| == 3
    ensures Or(vs) == if Truthy(vs[0]) then vs[0] else if Truthy(vs[1]) then vs[1] else vs[2]
  {
    if !Truthy(vs[0]) && !Truthy(vs[1]) && !Truthy(vs[2]) {
    } else if !Truthy(vs[0]) && !Truthy(vs[1]) {
      assert Or(vs) == vs[2];
    }
  }

  /** The state of the dedup loop: the keys seen (in the order first seen),
      the hit indices kept, the items built from them, and whether the loop
      has stopped at `k` items. */
  datatype Picked = Picked(keys: seq<string>, picked: seq<nat>, items: seq<Item>, stopped: bool)

  /** One turn of the loop on hit `i`, whose projection is `e`. */
  function Step(acc: Result<Picked, PyError>, i: nat, e: Result<Entry, PyError>, k: int): Result<Picked, PyError> {
    if acc.Err? || acc.value.stopped then acc
    else if e.Err? then Err(e.error)
    else if e.value.key == "" || e.value.key in acc.value.keys then acc
    else
      var p := acc.value;
      Ok(Picked(p.keys + [e.value.key], p.picked + [i], p.items + [e.value.item], |p.items| + 1 >= k))
  }

  /** The loop over the projections `es` of the hits. */
  function Scan(es: seq<Result<Entry, PyError>>, k: int): Result<Picked, PyError>
    decreases |es|
  {
    if es == [] then Ok(Picked([], [], [], false))
    else Step(Scan(es[..|es| - 1], k), |es| - 1, es[|es| - 1], k)
  }

  /** How the loop body projects a hit; `retrieve` uses `Project`. Keeping it
      a parameter keeps the loop's proof independent of the field reading. */
  type Projection = Hit -> Result<Entry, PyError>

  /** The projection of every hit. */
  function EntriesBy(hits: seq<Hit>, project: Projection): (es: seq<Result<Entry, PyError>>)
    ensures |es| == |hits| && forall i :: 0 <= i < |hits| ==> es[i] == project(hits[i])
  {
    seq(|hits|, i requires 0 <= i < |hits| => project(hits[i]))
  }

  function Entries(hits: seq<Hit>): seq<Result<Entry, PyError>> {
    EntriesBy(hits, Project)
  }

  /** The result of the loop over the projections `es`. */
  function Outcome(es: seq<Result<Entry, PyError>>, k: int): Result<seq<Item>, PyError> {
    match Scan(es, k)
    case Err(e) => Err(e)
    case Ok(p) => Ok(p.items)
  }

  /** What `retrieve` returns for the hits of the search. */
  function Retrieval(hits: seq<Hit>, k: int): Result<seq<Item>, PyError> {
    Outcome(Entries(hits), k)
  }

  lemma ScanPrefix(es: seq<Result<Entry, PyError>>, i: nat, k: int)
    requires i < |es|
    ensures Scan(es[..i + 1], k) == Step(Scan(es[..i], k), i, es[i], k)
  {
    assert es[..i + 1][..i] == es[..i];
  }

  /** A hit that fails ends the loop with its error. */
  lemma ScanFails(es: seq<Result<Entry, PyError>>, i: nat, k: int)
    requires i < |es| && Scan(es[..i], k).Ok? && !Scan(es[..i], k).value.stopped && es[i].Err?
    ensures Scan(es, k) == Err(es[i].error)
  {
    ScanPrefix(es, i, k);
    ScanStays(es, i + 1, k);
  }

  /** A hit with an empty or already seen key is skipped. */
  lemma ScanSkips(es: seq<Result<Entry, PyError>>, i: nat, k: int)
    requires i < |es| && Scan(es[..i], k).Ok? && !Scan(es[..i], k).value.stopped
    requires es[i].Ok? && (es[i].value.key == "" || es[i].value.key in Scan(es[..i], k).value.keys)
    ensures Scan(es[..i + 1], k) == Scan(es[..i], k)
  {
    ScanPrefix(es, i, k);
  }

  /** A hit with a new key is kept, and the loop stops once there are `k` items. */
  lemma ScanAdds(es: seq<Result<Entry, PyError>>, i: nat, k: int)
    requires i < |es| && Scan(es[..i], k).Ok? && !Scan(es[..i], k).value.stopped
    requires es[i].Ok? && es[i].value.key != "" && es[i].value.key !in Scan(es[..i], k).value.keys
    ensures var p := Scan(es[..i], k).value;
      Scan(es[..i + 1], k) == Ok(Picked(p.keys + [es[i].value.key], p.picked + [i],
                                        p.items + [es[i].value.item], |p.items| + 1 >= k))
  {
    ScanPrefix(es, i, k);
  }

  /** Once the loop has raised or stopped, the remaining hits change nothing. */
  lemma {:induction false} ScanStays(es: seq<Result<Entry, PyError>>, j: nat, k: int)
    requires j <= |es|
    requires Scan(es[..j], k).Err? || Scan(es[..j], k).value.stopped
    ensures Scan(es, k) == Scan(es[..j], k)
    decreases |es|
  {
    if j == |es| {
      assert es[..j] == es;
    } else {
      var n := |es| - 1;
      assert es[..n][..j] == es[..j];
      ScanStays(es[..n], j, k);
    }
  }

  /** The number of hits the loop has looked at: up to the last one kept when
      it stopped, all `n` otherwise. */
  function Scanned(p: Picked, n: nat): nat {
    if p.stopped && p.picked != [] then p.picked[|p.picked| - 1] + 1 else n
  }

  /** Each kept item is the projection of a hit among the first `n`, kept in
      search order, under a non-empty key. */
  ghost predicate Kept(es: seq<Result<Entry, PyError>>, n: nat, p: Picked) {
    && n <= |es|
    && |p.keys| == |p.picked| == |p.items|
    && (forall i :: 0 <= i < |p.picked| ==>
          p.picked[i] < n && es[p.picked[i]] == Ok(Entry(p.keys[i], p.items[i])))
    && (forall i, j :: 0 <= i < j < |p.picked| ==> p.picked[i] < p.picked[j])
    && (forall i :: 0 <= i < |p.keys| ==> p.keys[i] != "")
  }

  /** The hit kept for a key is the first hit with that key. */
  ghost predicate FirstKept(es: seq<Result<Entry, PyError>>, p: Picked) {
    |p.keys| == |p.picked| &&
    forall i, j :: 0 <= i < |p.picked| && 0 <= j < p.picked[i] && p.picked[i] <= |es| ==>
      es[j].Ok? && es[j].value.key != p.keys[i]
  }

  /** Every hit looked at projects, and its key, unless empty, is a kept one. */
  ghost predicate Covered(es: seq<Result<Entry, PyError>>, n: nat, p: Picked) {
    && Scanned(p, n) <= n <= |es|
    && forall j :: 0 <= j < Scanned(p, n) ==>
         es[j].Ok? && (es[j].value.key == "" || es[j].value.key in p.keys)
  }

  /** The loop stops exactly when `k` items, and at least one, are collected. */
  predicate Counted(p: Picked, k: int) {
    && (p.stopped <==> p.items != [] && |p.items| >= k)
    && (p.stopped ==> |p.items| == if k >= 1 then k else 1)
  }

  /** The loop state after the first `n` hits of `es`. */
  ghost predicate Inv(es: seq<Result<Entry, PyError>>, n: nat, p: Picked, k: int) {
    Kept(es, n, p) && FirstKept(es, p) && Covered(es, n, p) && Counted(p, k)
  }

  /** A turn that keeps hit `n`. */
  lemma StepAdds(es: seq<Result<Entry, PyError>>, n: nat, q: Picked, k: int)
    requires n < |es| && Inv(es, n, q, k) && !q.stopped
    requires es[n].Ok? && es[n].value.key != "" && es[n].value.key !in q.keys
    ensures Inv(es, n + 1, Step(Ok(q), n, es[n], k).value, k)
  {
    var p := Step(Ok(q), n, es[n], k).value;
    var key := es[n].value.key;
    assert Scanned(q, n) == n;
    assert Kept(es, n + 1, p);
    forall i, j | 0 <= i < |p.picked| && 0 <= j < p.picked[i] && p.picked[i] <= |es|
      ensures es[j].Ok? && es[j].value.key != p.keys[i]
    {
      if i == |q.picked| {
        assert j < Scanned(q, n);
        assert es[j].value.key == "" || es[j].value.key in q.keys;
      } else {
        assert p.picked[i] == q.picked[i] && p.keys[i] == q.keys[i];
      }
    }
    forall j | 0 <= j < Scanned(p, n + 1)
      ensures es[j].Ok? && (es[j].value.key == "" || es[j].value.key in p.keys)
    {
      if j < n {
        assert j < Scanned(q, n);
      } else {
        assert p.keys[|q.keys|] == key;
      }
    }
  }

  /** A turn that skips hit `n` or has already stopped. */
  lemma StepKeeps(es: seq<Result<Entry, PyError>>, n: nat, q: Picked, k: int)
    requires n < |es| && Inv(es, n, q, k)
    requires q.stopped || (es[n].Ok? && (es[n].value.key == "" || es[n].value.key in q.keys))
    ensures Step(Ok(q), n, es[n], k) == Ok(q)
    ensures Inv(es, n + 1, q, k)
  {
    assert Kept(es, n + 1, q);
    if !q.stopped {
      assert Scanned(q, n + 1) == n + 1;
    }
  }

  /** The loop state after the first `n` hits satisfies `Inv`. */
  lemma {:induction false} ScanInv(es: seq<Result<Entry, PyError>>, n: nat, k: int)
    requires n <= |es| && Scan(es[..n], k).Ok?
    ensures Inv(es, n, Scan(es[..n], k).value, k)
  {
    if n > 0 {
      ScanPrefix(es, n - 1, k);
      var q := Scan(es[..n - 1], k);
      assert q.Ok?;
      ScanInv(es, n - 1, k);
      if q.value.stopped || (es[n - 1].Ok? && (es[n - 1].value.key == "" || es[n - 1].value.key in q.value.keys)) {
        StepKeeps(es, n - 1, q.value, k);
      } else {
        StepAdds(es, n - 1, q.value, k);
      }
    }
  }

  /** The loop raises exactly when some hit fails while the loop is still
      running, and then with the error of the first failing hit, every hit
      before which projects; in particular it succeeds when every hit
      projects. */
  lemma {:induction false} ScanErr(es: seq<Result<Entry, PyError>>, n: nat, k: int)
    requires n <= |es|
    ensures Scan(es[..n], k).Err? ==>
      exists j :: 0 <= j < n && es[j] == Err(Scan(es[..n], k).error) &&
        (forall i :: 0 <= i < j ==> es[i].Ok?) &&
        Scan(es[..j], k).Ok? && !Scan(es[..j], k).value.stopped
    ensures (exists j :: 0 <= j < n && es[j].Err? && Scan(es[..j], k).Ok? && !Scan(es[..j], k).value.stopped) ==>
      Scan(es[..n], k).Err?
    ensures (forall j :: 0 <= j < n ==> es[j].Ok?) ==> Scan(es[..n], k).Ok?
  {
    if n > 0 {
      ScanPrefix(es, n - 1, k);
      ScanErr(es, n - 1, k);
      var q := Scan(es[..n - 1], k);
      if q.Ok? && !q.value.stopped && es[n - 1].Err? {
        ScanInv(es, n - 1, k);
        assert Scanned(q.value, n - 1) == n - 1;
      }
    }
    forall j | 0 <= j < n && es[j].Err? && Scan(es[..j], k).Ok? && !Scan(es[..j], k).value.stopped
      ensures Scan(es[..n], k).Err?
    {
      assert es[..n][..j] == es[..j];
      ScanFails(es[..n], j, k);
    }
  }

  /** The final loop state of a `retrieve` that did not raise. */
  function Picks(hits: seq<Hit>, k: int): Picked
    requires Retrieval(hits, k).Ok?
  {
    Scan(Entries(hits), k).value
  }

  lemma RetrieveInv(hits: seq<Hit>, k: int)
    requires Retrieval(hits, k).Ok?
    ensures Inv(Entries(hits), |hits|, Picks(hits, k), k)
  {
    var es := Entries(hits);
    assert es[..|es|] == es;
    ScanInv(es, |es|, k);
  }

  /** The hits before `j` give the first `j` projections. */
  lemma EntriesPrefix(hits: seq<Hit>, j: nat)
    requires j <= |hits|
    ensures Entries(hits[..j]) == Entries(hits)[..j]
  {
  }

  /** `retrieve` on the first `j` hits is the loop state after them; it
      has not stopped exactly when fewer than `k` items, or none, are
      collected. */
  lemma RetrieveAt(hits: seq<Hit>, j: nat, k: int)
    requires j <= |hits|
    ensures Retrieval(hits[..j], k).Ok? <==> Scan(Entries(hits)[..j], k).Ok?
    ensures Scan(Entries(hits)[..j], k).Ok? ==>
      Retrieval(hits[..j], k).value == Scan(Entries(hits)[..j], k).value.items &&
      (!Scan(Entries(hits)[..j], k).value.stopped <==>
         Retrieval(hits[..j], k).value == [] || |Retrieval(hits[..j], k).value| < k)
  {
    EntriesPrefix(hits, j);
    if Scan(Entries(hits)[..j], k).Ok? {
      ScanInv(Entries(hits), j, k);
    }
  }

  /** `retrieve` raises exactly when a hit fails while fewer than `k` items
      (or none) are collected from the hits before it, and then with the
      error of the first failing hit; it does not raise when every hit
      projects. */
  lemma RetrieveErr(hits: seq<Hit>, k: int)
    ensures (forall j :: 0 <= j < |hits| ==> Project(hits[j]).Ok?) ==> Retrieval(hits, k).Ok?
    ensures Retrieval(hits, k).Err? ==>
      exists j :: 0 <= j < |hits| && Project(hits[j]) == Err(Retrieval(hits, k).error) &&
        (forall i :: 0 <= i < j ==> Project(hits[i]).Ok?) &&
        Retrieval(hits[..j], k).Ok? && (Retrieval(hits[..j], k).value == [] || |Retrieval(hits[..j], k).value| < k)
    ensures (exists j :: 0 <= j < |hits| && Project(hits[j]).Err? && Retrieval(hits[..j], k).Ok? &&
               (Retrieval(hits[..j], k).value == [] || |Retrieval(hits[..j], k).value| < k)) ==>
      Retrieval(hits, k).Err?
  {
    if Retrieval(hits, k).Err? {
      var j := FirstFailure(hits, k);
      RunningAt(hits, j, k);
    }
    forall j | 0 <= j < |hits| && Project(hits[j]).Err? && Retrieval(hits[..j], k).Ok? &&
               (Retrieval(hits[..j], k).value == [] || |Retrieval(hits[..j], k).value| < k)
      ensures Retrieval(hits, k).Err?
    {
      RetrieveFailsAt(hits, j, k);
    }
  }

  /** The hit whose error a raising `retrieve` raises: it fails while the
      loop still runs, and every hit before it projects. */
  lemma FirstFailure(hits: seq<Hit>, k: int) returns (j: nat)
    requires Retrieval(hits, k).Err?
    ensures j < |hits| && Entries(hits)[j] == Err(Retrieval(hits, k).error)
    ensures forall i :: 0 <= i < j ==> Entries(hits)[i].Ok?
    ensures Scan(Entries(hits)[..j], k).Ok? && !Scan(Entries(hits)[..j], k).value.stopped
  {
    var es := Entries(hits);
    assert es[..|es|] == es;
    ScanErr(es, |es|, k);
    j :| 0 <= j < |es| && es[j] == Err(Retrieval(hits, k).error) && (forall i :: 0 <= i < j ==> es[i].Ok?) &&
         Scan(es[..j], k).Ok? && !Scan(es[..j], k).value.stopped;
  }

  /** The loop state after the first `j` hits, read back as `retrieve` on them. */
  lemma RunningAt(hits: seq<Hit>, j: nat, k: int)
    requires j < |hits| && (forall i :: 0 <= i < j ==> Entries(hits)[i].Ok?)
    requires Scan(Entries(hits)[..j], k).Ok? && !Scan(Entries(hits)[..j], k).value.stopped
    ensures Project(hits[j]) == Entries(hits)[j]
    ensures forall i :: 0 <= i < j ==> Project(hits[i]).Ok?
    ensures Retrieval(hits[..j], k).Ok?
    ensures Retrieval(hits[..j], k).value == [] || |Retrieval(hits[..j], k).value| < k
  {
    RetrieveAt(hits, j, k);
  }

  /** A hit that fails while the loop still runs makes `retrieve` raise. */
  lemma RetrieveFailsAt(hits: seq<Hit>, j: nat, k: int)
    requires j < |hits| && Project(hits[j]).Err? && Retrieval(hits[..j], k).Ok?
    requires Retrieval(hits[..j], k).value == [] || |Retrieval(hits[..j], k).value| < k
    ensures Retrieval(hits, k).Err?
  {
    var es := Entries(hits);
    assert es[..|es|] == es;
    RetrieveAt(hits, j, k);
    ScanErr(es, |es|, k);
    assert es[j].Err? && Scan(es[..j], k).Ok? && !Scan(es[..j], k).value.stopped;
  }

  /** Once `retrieve` has collected `k` items (and at least one), further
      hits after them, failing or not, change nothing. */
  lemma RetrieveIgnoresRest(hits: seq<Hit>, rest: seq<Hit>, k: int)
    requires Retrieval(hits, k).Ok? && Retrieval(hits, k).value != [] && |Retrieval(hits, k).value| >= k
    ensures Retrieval(hits + rest, k) == Retrieval(hits, k)
  {
    var es := Entries(hits + rest);
    assert (hits + rest)[..|hits|] == hits;
    EntriesPrefix(hits + rest, |hits|);
    var hs := Entries(hits);
    assert hs[..|hs|] == hs;
    ScanInv(hs, |hs|, k);
    ScanStays(es, |hits|, k);
  }

  /** The items of `retrieve` come from hits in search order, under pairwise
      different keys, each from the first hit carrying its key. */
  lemma RetrieveKept(hits: seq<Hit>, k: int)
    requires Retrieval(hits, k).Ok?
    ensures var p := Picks(hits, k);
      && p.items == Retrieval(hits, k).value
      && |p.items| == |p.picked| == |p.keys|
      && (forall i :: 0 <= i < |p.picked| ==>
            p.picked[i] < |hits| && Project(hits[p.picked[i]]) == Ok(Entry(p.keys[i], p.items[i])))
      && (forall i, j :: 0 <= i < j < |p.picked| ==> p.picked[i] < p.picked[j] && p.keys[i] != p.keys[j])
      && (forall i, j :: 0 <= i < |p.picked| && 0 <= j < p.picked[i] ==>
            Project(hits[j]).Ok? && Project(hits[j]).value.key != p.keys[i])
  {
    RetrieveInv(hits, k);
    var p := Picks(hits, k);
    var es := Entries(hits);
    forall i, j | 0 <= i < j < |p.picked| ensures p.keys[i] != p.keys[j] {
      assert p.picked[i] < p.picked[j];
      assert es[p.picked[i]].value.key == p.keys[i];
    }
  }

  /** `retrieve` returns at most `k` items (one when `k` is not positive),
      fewer only when it looked at every hit, and every hit it looked at has
      its key among the returned ones. */
  lemma RetrieveStops(hits: seq<Hit>, k: int)
    requires Retrieval(hits, k).Ok?
    ensures var p := Picks(hits, k);
      && |p.items| <= (if k >= 1 then k else 1)
      && (|p.items| < k || p.items == [] ==> Scanned(p, |hits|) == |hits|)
      && Scanned(p, |hits|) <= |hits|
      && (forall j :: 0 <= j < Scanned(p, |hits|) ==> Project(hits[j]).Ok? && Project(hits[j]).value.key in p.keys)
  {
    RetrieveInv(hits, k);
    var p := Picks(hits, k);
    forall j | 0 <= j < Scanned(p, |hits|) ensures Project(hits[j]).Ok? && Project(hits[j]).value.key in p.keys {
      ProjectSpec(hits[j]);
    }
  }

  /** The dedup loop of `retrieve`: a `seen` set of keys, an `items` list,
      a `continue` on an empty or repeated key and a `break` at `k` items. */
  method Retrieve(hits: seq<Hit>, k: int, project: Projection) returns (r: Result<seq<Item>, PyError>)
    ensures r == Outcome(EntriesBy(hits, project), k)
    ensures project == Project ==> r == Retrieval(hits, k)
  {
    ghost var es := EntriesBy(hits, project);
    var seen: set<string> := {};
    var items: seq<Item> := [];
    ghost var keys: seq<string> := [];
    ghost var picked: seq<nat> := [];
    var i: nat := 0;
    assert es[..0] == [];
    while i < |hits|
      invariant i <= |hits|
      invariant Scan(es[..i], k) == Ok(Picked(keys, picked, items, false))
      invariant forall x :: x in seen <==> x in keys
    {
      var e := project(hits[i]);
      assert e == es[i];
      if e.Err? {
        ScanFails(es, i, k);
        return Err(e.error);
      }
      var key := e.value.key;
      if key != "" && key !in seen {
        ScanAdds(es, i, k);
        seen := seen + {key};
        items := items + [e.value.item];
        keys := keys + [key];
        picked := picked + [i];
        if |items| >= k {
          ScanStays(es, i + 1, k);
          return Ok(items);
        }
      } else {
        ScanSkips(es, i, k);
      }
      i := i + 1;
    }
    assert es[..i] == es;
    r := Ok(items);
  }

  /** A button of the inline keyboard: one that sends callback data, or a link. */
  datatype Button = Callback(text: string, data: string) | Link(text: string, url: string)

  const PrevData: string := "nav:prev"
  const NextData: string := "nav:next"
  const NoopData: string := "nav:noop"
  const NavPrefix: string := "nav:"
  const OpenLabel: string := "🔗 Открыть вакансию"

  /** The counter label `f"{idx+1}/{total}"`. */
  function Counter(idx: int, total: int): string {
    IntToString(idx + 1) + "/" + IntToString(total)
  }

  /** `build_nav_kb(idx, total, url)`: always the row `[prev, counter, next]`;
      a second row with the link exactly when `url` is a string starting
      with `http`. */
  function BuildNavKb(idx: int, total: int, url: Json): (rows: seq<seq<Button>>)
    ensures 1 <= |rows| <= 2
    ensures rows[0] == [Callback("⬅️", PrevData), Callback(Counter(idx, total), NoopData), Callback("➡️", NextData)]
    ensures |rows| == 2 <==> url.Str? && StartsWith(url.s, "http")
    ensures |rows| == 2 ==> rows[1] == [Link(OpenLabel, url.s)]
  {
    var rows := [[Callback("⬅️", PrevData), Callback(Counter(idx, total), NoopData), Callback("➡️", NextData)]];
    if url.Str? && StartsWith(url.s, "http") then rows + [[Link(OpenLabel, url.s)]] else rows
  }

  /** The index `on_nav` moves to on callback `data`: one forward, clamped to
      the last card; one back, clamped to the first; any other `nav:` data
      keeps it. */
  function NavTarget(data: string, idx: int, total: int): int {
    if data == NextData then (if idx + 1 < total - 1 then idx + 1 else total - 1)
    else if data == PrevData then (if idx - 1 > 0 then idx - 1 else 0)
    else idx
  }

  /** From a card in range the move stays in range, goes at most one step, and
      goes exactly one step unless it is at the end it moves towards. */
  lemma NavTargetSpec(data: string, idx: int, total: int)
    requires 0 <= idx < total
    ensures 0 <= NavTarget(data, idx, total) < total
    ensures data == NextData ==> NavTarget(data, idx, total) == if idx + 1 < total then idx + 1 else idx
    ensures data == PrevData ==> NavTarget(data, idx, total) == if idx > 0 then idx - 1 else 0
    ensures data != NextData && data != PrevData ==> NavTarget(data, idx, total) == idx
  {
  }

  /** What the bot shows: the item of the current card and its keyboard. */
  datatype Screen = Screen(item: Item, keyboard: seq<seq<Button>>)

  /** The screen for card `idx` of `docs`; an item's `url` is always a string. */
  function ScreenAt(docs: seq<Item>, idx: nat): Screen
    requires idx < |docs|
  {
    Screen(docs[idx], BuildNavKb(idx, |docs|, Str(docs[idx].url)))
  }

  /** A chat's `ctx.user_data`: the stored results (empty when there are none)
      and the index of the card shown. */
  class ChatSession {
    var results: seq<Item>
    var idx: int

    /** The index points at a stored result. */
    ghost predicate Valid()
      reads this
    {
      results != [] ==> 0 <= idx < |results|
    }

    /** A chat with nothing stored; `user_data.get("idx", 0)` reads 0. */
    constructor()
      ensures Valid() && results == [] && idx == 0
    {
      results := [];
      idx := 0;
    }

    /** `on_message` after `retrieve`: nothing found leaves the chat as it
        was; otherwise the results are stored and the first card is shown. */
    method Store(docs: seq<Item>) returns (shown: Option<Screen>)
      requires Valid()
      modifies this
      ensures Valid()
      ensures docs == [] ==> shown.None? && results == old(results) && idx == old(idx)
      ensures docs != [] ==> results == docs && idx == 0 && shown == Some(ScreenAt(docs, 0))
    {
      if docs == [] {
        return None;
      }
      results := docs;
      idx := 0;
      shown := Some(ScreenAt(docs, 0));
    }

    /** `on_nav(data)`: data that is missing, not `nav:`, `nav:noop`, or a chat
        with no results changes nothing and shows nothing; otherwise the index
        moves by `NavTarget` and the card there is shown. */
    method OnNav(data: Option<string>) returns (shown: Option<Screen>)
      requires Valid()
      modifies this
      ensures Valid() && results == old(results)
      ensures var d := if data.Some? then data.value else "";
        shown.None? <==> !StartsWith(d, NavPrefix) || old(results) == [] || d == NoopData
      ensures shown.None? ==> idx == old(idx)
      ensures shown.Some? ==>
        var d := data.value;
        idx == NavTarget(d, old(idx), |results|) && 0 <= idx < |results| && shown.value == ScreenAt(results, idx)
    {
      var d := if data.Some? && data.value != "" then data.value else "";
      if !StartsWith(d, NavPrefix) || results == [] || d == NoopData {
        return None;
      }
      var total := |results|;
      NavTargetSpec(d, idx, total);
      idx := NavTarget(d, idx, total);
      shown := Some(ScreenAt(results, idx));
    }
  }
}
