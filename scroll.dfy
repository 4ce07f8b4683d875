/**
  The scroll loop both maintenance scripts share: read the collection page by
  page until a page comes back empty or the scroll reports no next offset,
  split each page, send the page's writes before reading the next one, and
  stop at the first page that fails. `T` is what a page splits into and
  `Tot` the counters the script prints.
 */
module Scroll {
  import opened Wrappers
  import opened Json
  import opened PointStore

  /** `pages[k]` is what the `k`-th scroll call returns; the returned offset
      is `None` after the last page, and a call past it returns nothing. */
  function PageAt(pages: seq<seq<Point>>, k: nat): seq<Point> {
    if k < |pages| then pages[k] else []
  }

  /** How many pages the loop reads: every page up to the first empty one,
      or all of them. */
  function Scrolled(pages: seq<seq<Point>>): (n: nat)
    ensures n <= |pages|
    ensures forall j :: 0 <= j < n ==> pages[j] != []
    ensures n < |pages| ==> pages[n] == []
  {
    if pages == [] || pages[0] == [] then 0
    else
      var n := 1 + Scrolled(pages[1..]);
      assert forall j :: 1 <= j < |pages| ==> pages[j] == pages[1..][j - 1];
      n
  }

  /** The end of a run: the counters, or the error that stopped it, and every
      payload write sent before it ended. */
  datatype Run<Tot> = Run(outcome: Result<Tot, PyError>, writes: seq<Write>)

  /** The run from page `k` on, with the counters and writes so far: `split`
      turns a page into `T` or an error, `emit` gives the writes of a split
      page, and `add` the counters after a page of the given size. */
  function RunFrom<T, Tot>(pages: seq<seq<Point>>, split: seq<Point> -> Result<T, PyError>,
                           emit: T -> seq<Write>, add: (Tot, nat, T) -> Tot,
                           k: nat, tot: Tot, writes: seq<Write>): Run<Tot>
    decreases |pages| - k
  {
    var pts := PageAt(pages, k);
    if pts == [] then Run(Ok(tot), writes)
    else
      match split(pts)
      case Err(e) => Run(Err(e), writes)
      case Ok(t) =>
        var tot' := add(tot, |pts|, t);
        var writes' := writes + emit(t);
        if k + 1 >= |pages| then Run(Ok(tot'), writes')
        else RunFrom(pages, split, emit, add, k + 1, tot', writes')
  }

  /** One iteration of the loop, as `RunFrom` takes it. */
  lemma RunFromPage<T, Tot>(pages: seq<seq<Point>>, split: seq<Point> -> Result<T, PyError>,
                            emit: T -> seq<Write>, add: (Tot, nat, T) -> Tot,
                            k: nat, tot: Tot, writes: seq<Write>)
    requires PageAt(pages, k) != []
    ensures var pts := PageAt(pages, k);
      var r, run := split(pts), RunFrom(pages, split, emit, add, k, tot, writes);
      && (r.Err? ==> run == Run(Err(r.error), writes))
      && (r.Ok? ==>
            var tot', writes' := add(tot, |pts|, r.value), writes + emit(r.value);
            run == if k + 1 >= |pages| then Run(Ok(tot'), writes')
                   else RunFrom(pages, split, emit, add, k + 1, tot', writes'))
  {
  }

  /** The writes one page sends: none when it fails to split. */
  function PageSent<T>(r: Result<T, PyError>, emit: T -> seq<Write>): seq<Write> {
    match r
    case Ok(t) => emit(t)
    case Err(_) => []
  }

  /** The writes the first `n` pages send. */
  function Sent<T>(pages: seq<seq<Point>>, split: seq<Point> -> Result<T, PyError>,
                   emit: T -> seq<Write>, n: nat): seq<Write>
    requires n <= |pages|
  {
    if n == 0 then [] else Sent(pages, split, emit, n - 1) + PageSent(split(pages[n - 1]), emit)
  }

  /** The writes of the first `m` pages depend only on those pages. */
  lemma {:induction false} SentPrefix<T>(pages: seq<seq<Point>>, split: seq<Point> -> Result<T, PyError>,
                                         emit: T -> seq<Write>, m: nat, n: nat)
    requires m <= n <= |pages|
    ensures Sent(pages, split, emit, m) == Sent(pages[..n], split, emit, m)
  {
    if m > 0 {
      SentPrefix(pages, split, emit, m - 1, n);
      assert pages[..n][m - 1] == pages[m - 1];
    }
  }

  /** The run ends with the error of page `j`, the first that fails to
      split, after sending the writes of the pages before it. */
  predicate FailsAt<T, Tot>(pages: seq<seq<Point>>, split: seq<Point> -> Result<T, PyError>,
                            emit: T -> seq<Write>, run: Run<Tot>, j: nat) {
    && j < |pages|
    && run.outcome.Err?
    && split(pages[j]).Err? && split(pages[j]).error == run.outcome.error
    && (forall i :: 0 <= i < j ==> split(pages[i]).Ok?)
    && run.writes == Sent(pages, split, emit, j)
  }

  lemma {:induction false} RunFromWrites<T, Tot>(pages: seq<seq<Point>>, split: seq<Point> -> Result<T, PyError>,
                                                 emit: T -> seq<Write>, add: (Tot, nat, T) -> Tot,
                                                 k: nat, tot: Tot, writes: seq<Write>)
    requires k <= Scrolled(pages)
    requires forall j :: 0 <= j < k ==> split(pages[j]).Ok?
    requires writes == Sent(pages, split, emit, k)
    ensures var run, n := RunFrom(pages, split, emit, add, k, tot, writes), Scrolled(pages);
      && (run.outcome.Ok? <==> forall j :: 0 <= j < n ==> split(pages[j]).Ok?)
      && (run.outcome.Ok? ==> run.writes == Sent(pages, split, emit, n))
      && (run.outcome.Err? ==> exists j: nat :: j < n && FailsAt(pages, split, emit, run, j))
    decreases |pages| - k
  {
    var n := Scrolled(pages);
    var run := RunFrom(pages, split, emit, add, k, tot, writes);
    if k < n {
      var pts := pages[k];
      assert PageAt(pages, k) == pts;
      match split(pts)
      case Err(e) =>
        assert FailsAt(pages, split, emit, run, k);
      case Ok(t) =>
        var writes' := writes + emit(t);
        assert writes' == Sent(pages, split, emit, k + 1);
        if k + 1 < |pages| {
          RunFromWrites(pages, split, emit, add, k + 1, add(tot, |pts|, t), writes');
        }
    }
  }

  /** The loop reads the pages up to the first empty one. A run from the
      start fails exactly when one of them fails to split, and then with the
      error of the first that fails, having sent the writes of the pages
      before it; otherwise it sends the writes of every page it read, in page
      order. */
  lemma RunWrites<T, Tot>(pages: seq<seq<Point>>, split: seq<Point> -> Result<T, PyError>,
                          emit: T -> seq<Write>, add: (Tot, nat, T) -> Tot, tot: Tot)
    ensures var run, n := RunFrom(pages, split, emit, add, 0, tot, []), Scrolled(pages);
      && (run.outcome.Ok? <==> forall j :: 0 <= j < n ==> split(pages[j]).Ok?)
      && (run.outcome.Ok? ==> run.writes == Sent(pages, split, emit, n))
      && (run.outcome.Err? ==> exists j: nat :: j < n && FailsAt(pages, split, emit, run, j))
  {
    RunFromWrites(pages, split, emit, add, 0, tot, []);
  }
}
