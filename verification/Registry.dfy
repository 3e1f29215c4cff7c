/** The two maps of the subscription registry and what one critical section does to them.

`receivers` maps a receiver id to its subscribed tickers, `index` is the inverted map from a
ticker to the ids that want it. The class in Generator.dfy and the step machine in Machine.dfy
are both specified by the functions below. */
module Registry {

  type Id = nat
  type Ticker = string

  datatype Quote = Quote(ticker: Ticker, price: real, volume: nat, timestamp: nat)

  function ToSet<T(==)>(xs: seq<T>): set<T> {
    set x | x in xs
  }

  /** The index after every ticker of `ts` got `id` (creating an entry where there is none). */
  function AddToIndex(index: map<Ticker, set<Id>>, ts: set<Ticker>, id: Id): map<Ticker, set<Id>> {
    map t | t in index.Keys + ts ::
      (if t in index then index[t] else {}) + (if t in ts then {id} else {})
  }

  /** The index after `id` was taken out of every known ticker of `ts`. */
  function DropFromIndex(index: map<Ticker, set<Id>>, ts: set<Ticker>, id: Id): map<Ticker, set<Id>> {
    map t | t in index :: if t in ts then index[t] - {id} else index[t]
  }

  /** The first ticker of the list that the index does not know. */
  function FirstUnknown(known: set<Ticker>, want: seq<Ticker>): (r: Ticker)
    requires exists t :: t in want && t !in known
    ensures r in want && r !in known
    ensures exists i :: 0 <= i < |want| && want[i] == r && forall j :: 0 <= j < i ==> want[j] in known
  {
    if want[0] !in known then want[0]
    else
      var r := FirstUnknown(known, want[1..]);
      var i :| 0 <= i < |want[1..]| && want[1..][i] == r && forall j :: 0 <= j < i ==> want[1..][j] in known;
      assert want[i + 1] == r && forall j :: 0 <= j < i + 1 ==> want[j] in known;
      r
  }

  /** Every subscriber that a scan of the whole receiver map would find for `t`. */
  function FullScan(receivers: map<Id, set<Ticker>>, t: Ticker): set<Id> {
    set id | id in receivers && t in receivers[id]
  }

  /** The index is exactly the inversion of the receiver map. */
  ghost predicate Inverted(receivers: map<Id, set<Ticker>>, index: map<Ticker, set<Id>>) {
    && (forall id, t :: id in receivers && t in receivers[id] ==> t in index)
    && (forall t :: t in index ==> index[t] == FullScan(receivers, t))
  }

  /** A removal in progress: the three critical sections of `remove_receiver`. */
  datatype Remover =
    | Look(id: Id)                          // about to read the subscribed tickers
    | Unmap(id: Id, ts: set<Ticker>)        // about to take the id out of `receivers`
    | Unindex(id: Id, ts: set<Ticker>)      // about to take the id out of the index

  /** The quotes of `t` in a history, in order. */
  function Project(xs: seq<Quote>, t: Ticker): seq<Quote> {
    if xs == [] then []
    else
      var q := xs[|xs| - 1];
      Project(xs[..|xs| - 1], t) + (if q.ticker == t then [q] else [])
  }

  lemma ProjectSnoc(xs: seq<Quote>, q: Quote, t: Ticker)
    ensures Project(xs + [q], t) == Project(xs, t) + (if q.ticker == t then [q] else [])
  {
    assert (xs + [q])[..|xs + [q]| - 1] == xs;
  }

  lemma {:induction false} ProjectPrefix(xs: seq<Quote>, n: nat, t: Ticker)
    requires n <= |xs|
    ensures |Project(xs[..n], t)| <= |Project(xs, t)|
    ensures Project(xs[..n], t) == Project(xs, t)[..|Project(xs[..n], t)|]
  {
    if n == |xs| {
      assert xs[..n] == xs;
    } else {
      var ys := xs[..|xs| - 1];
      assert ys[..n] == xs[..n];
      ProjectPrefix(ys, n, t);
    }
  }
}
