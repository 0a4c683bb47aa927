/**
 * One worker of the search: for each mnemonic, select the scheme, walk the
 * grid of derivation indices in order, count every evaluated address in the
 * shared attempt counter (reporting progress every million attempts), and
 * stop at the first address that matches.
 */
module Search {
  import opened Common
  import opened AddressMatch
  import opened Schemes

  /** The grid of one mnemonic: accounts 0..0, changes 0..0, address indices 0..49. */
  const ACCOUNTS: nat := 1
  const CHANGES: nat := 1
  const INDICES: nat := 50

  /** A progress line is logged whenever the attempt count is a multiple of this. */
  const REPORT_EVERY: nat := 1000000

  /** The arguments of find_address other than the shared counter and its lock. */
  datatype Config = Config(
    blockchain: string,
    addressType: string,
    substring: string,
    passphrase: string,
    caseSensitive: bool,
    position: string)

  /** What a match reports: the mnemonic, the address and its derivation path text. */
  datatype SearchResult = SearchResult(mnemonic: string, address: string, derivationPath: string)

  /**
   * Seed stretching, key derivation and address encoding, which this model
   * does not look inside: the address of the key at address index i of
   * account 0, external chain, under the master key that (mnemonic,
   * passphrase) gives for the scheme.
   */
  type Deriver = (string, string, Scheme, nat) -> string

  function AddressAt(cfg: Config, derive: Deriver, s: Scheme, mnemonic: string, index: nat): string {
    derive(mnemonic, cfg.passphrase, s, index)
  }

  predicate IsMatch(cfg: Config, s: Scheme, address: string) {
    Matches(address, cfg.substring, s.startWith, cfg.caseSensitive, cfg.position)
  }

  /** The first address index at or after `from` whose address matches, if any. */
  function FirstMatch(cfg: Config, derive: Deriver, s: Scheme, mnemonic: string, from: nat): (r: Option<nat>)
    requires from <= INDICES
    decreases INDICES - from
    ensures r.Some? ==> from <= r.value < INDICES && IsMatch(cfg, s, AddressAt(cfg, derive, s, mnemonic, r.value))
    ensures forall j :: from <= j < (if r.Some? then r.value else INDICES) ==>
      !IsMatch(cfg, s, AddressAt(cfg, derive, s, mnemonic, j))
  {
    if from == INDICES then None
    else if IsMatch(cfg, s, AddressAt(cfg, derive, s, mnemonic, from)) then Some(from)
    else FirstMatch(cfg, derive, s, mnemonic, from + 1)
  }

  /** What one mnemonic's grid yields, and how many addresses it evaluates. */
  function ScanOutcome(cfg: Config, derive: Deriver, s: Scheme, mnemonic: string): (Option<SearchResult>, nat) {
    match FirstMatch(cfg, derive, s, mnemonic, 0)
    case Some(i) => (Some(SearchResult(mnemonic, AddressAt(cfg, derive, s, mnemonic, i), SourcePath(s, 0, 0, i))), i + 1)
    case None => (None, INDICES)
  }

  /** The path texts of the first n grid cells, in the order they are visited. */
  function GridPaths(s: Scheme, n: nat): seq<string> {
    seq(n, i requires 0 <= i => SourcePath(s, 0, 0, i))
  }

  lemma GridPathsStep(s: Scheme, n: nat)
    ensures GridPaths(s, n + 1) == GridPaths(s, n) + [SourcePath(s, 0, 0, n)]
  {
  }

  /** The counts at which a progress line is logged while the counter climbs from 0 to n. */
  function ReportsUpTo(n: nat): seq<nat> {
    if n == 0 then [] else ReportsUpTo(n - 1) + (if n % REPORT_EVERY == 0 then [n] else [])
  }

  /** One step of the count adds a report exactly when it reaches a new multiple. */
  lemma QuotientStep(n: nat)
    requires n > 0
    ensures n / REPORT_EVERY == (n - 1) / REPORT_EVERY + (if n % REPORT_EVERY == 0 then 1 else 0)
  {
    var q, r := (n - 1) / REPORT_EVERY, (n - 1) % REPORT_EVERY;
    assert n - 1 == q * REPORT_EVERY + r;
    if r == REPORT_EVERY - 1 {
      assert n == (q + 1) * REPORT_EVERY;
    } else {
      assert n == q * REPORT_EVERY + (r + 1);
    }
  }

  /**
   * Progress is logged at exactly the positive multiples of a million up to
   * the count, in ascending order, so there are count / 1000000 lines.
   */
  lemma {:induction false} ProgressReports(n: nat)
    ensures forall x :: x in ReportsUpTo(n) <==> 0 < x <= n && x % REPORT_EVERY == 0
    ensures forall i, j :: 0 <= i < j < |ReportsUpTo(n)| ==> ReportsUpTo(n)[i] < ReportsUpTo(n)[j]
    ensures |ReportsUpTo(n)| == n / REPORT_EVERY
  {
    if n > 0 {
      ProgressReports(n - 1);
      QuotientStep(n);
      var before := ReportsUpTo(n - 1);
      forall i | 0 <= i < |before|
        ensures before[i] < n
      {
        assert before[i] in before;
      }
    }
  }

  /**
   * The shared attempt counter (attempt_count) with the progress lines it
   * has caused. The lock around its update is not modelled: one worker.
   */
  class AttemptCounter {
    var value: nat
    ghost var progress: seq<nat>

    ghost predicate Valid()
      reads this
    {
      progress == ReportsUpTo(value)
    }

    constructor ()
      ensures Valid() && value == 0 && progress == []
    {
      value := 0;
      progress := [];
    }

    /** attempt_count.value += 1, then a progress line when the new count is a multiple of a million. */
    method Increment()
      requires Valid()
      modifies this
      ensures Valid()
      ensures value == old(value) + 1
      ensures progress == old(progress) + if value % REPORT_EVERY == 0 then [value] else []
    {
      value := value + 1;
      if value % REPORT_EVERY == 0 {
        progress := progress + [value];
      }
    }
  }

  /**
   * The grid of one mnemonic under scheme s: each cell's path text is formed,
   * its address derived, the counter raised by one, and the address tested;
   * the first match is returned at once.
   */
  method ScanGrid(counter: AttemptCounter, cfg: Config, derive: Deriver, s: Scheme, mnemonic: string)
    returns (found: Option<SearchResult>, ghost visited: seq<string>)
    requires counter.Valid()
    modifies counter
    ensures counter.Valid()
    ensures found == ScanOutcome(cfg, derive, s, mnemonic).0
    ensures counter.value == old(counter.value) + ScanOutcome(cfg, derive, s, mnemonic).1
    ensures visited == GridPaths(s, ScanOutcome(cfg, derive, s, mnemonic).1)
  {
    ghost var start := counter.value;
    found, visited := None, [];
    var account := 0;
    while account < ACCOUNTS
      invariant 0 <= account <= ACCOUNTS
      invariant counter.Valid()
      invariant counter.value == start + account * INDICES
      invariant visited == GridPaths(s, account * INDICES)
      invariant account == 1 ==> FirstMatch(cfg, derive, s, mnemonic, 0) == None
    {
      var change := 0;
      while change < CHANGES
        invariant 0 <= change <= CHANGES
        invariant counter.Valid()
        invariant counter.value == start + change * INDICES
        invariant visited == GridPaths(s, change * INDICES)
        invariant change == 1 ==> FirstMatch(cfg, derive, s, mnemonic, 0) == None
      {
        var index := 0;
        while index < INDICES
          invariant 0 <= index <= INDICES
          invariant counter.Valid()
          invariant counter.value == start + index
          invariant visited == GridPaths(s, index)
          invariant FirstMatch(cfg, derive, s, mnemonic, 0) == FirstMatch(cfg, derive, s, mnemonic, index)
        {
          var derivationPath := SourcePath(s, account, change, index);
          var address := AddressAt(cfg, derive, s, mnemonic, index);
          counter.Increment();
          GridPathsStep(s, index);
          visited := visited + [derivationPath];
          if IsMatch(cfg, s, address) {
            found := Some(SearchResult(mnemonic, address, derivationPath));
            return;
          }
          index := index + 1;
        }
        change := change + 1;
      }
      account := account + 1;
    }
  }

  /** How a bounded run of find_address ends. */
  datatype Outcome =
      /** A match was reported. */
    | Found(result: SearchResult)
      /** The scheme could not be selected; the error escapes find_address. */
    | Failed(error: SchemeError)
      /** Every given mnemonic was scanned without a match. */
    | Exhausted

  /** The rounds of find_address over the given mnemonics: the outcome and the addresses evaluated. */
  function Rounds(cfg: Config, derive: Deriver, mnemonics: seq<string>): (r: (Outcome, nat))
    ensures r.1 <= |mnemonics| * INDICES
    ensures r.0 == Exhausted ==> r.1 == |mnemonics| * INDICES
    ensures r.0.Failed? ==> r.1 == 0 && SelectScheme(cfg.blockchain, cfg.addressType).Err?
  {
    if mnemonics == [] then (Exhausted, 0)
    else
      match SelectScheme(cfg.blockchain, cfg.addressType)
      case Err(e) => (Failed(e), 0)
      case Ok(s) =>
        var scan := ScanOutcome(cfg, derive, s, mnemonics[0]);
        if scan.0.Some? then (Found(scan.0.value), scan.1)
        else
          var later := Rounds(cfg, derive, mnemonics[1..]);
          (later.0, scan.1 + later.1)
  }

  /**
   * A reported match is the first matching address of the first mnemonic
   * whose grid has one: the k full grids before it and i + 1 addresses of
   * its own grid were counted, and no earlier cell matched.
   */
  lemma {:induction false} RoundsFound(cfg: Config, derive: Deriver, mnemonics: seq<string>) returns (k: nat, i: nat)
    requires Rounds(cfg, derive, mnemonics).0.Found?
    ensures SelectScheme(cfg.blockchain, cfg.addressType).Ok?
    ensures k < |mnemonics| && i < INDICES
    ensures var s := SelectScheme(cfg.blockchain, cfg.addressType).value;
      var address := AddressAt(cfg, derive, s, mnemonics[k], i);
      && Rounds(cfg, derive, mnemonics).0.result == SearchResult(mnemonics[k], address, SourcePath(s, 0, 0, i))
      && IsMatch(cfg, s, address)
      && Rounds(cfg, derive, mnemonics).1 == k * INDICES + i + 1
      && (forall k', j :: 0 <= k' < k && 0 <= j < INDICES ==> !IsMatch(cfg, s, AddressAt(cfg, derive, s, mnemonics[k'], j)))
      && (forall j :: 0 <= j < i ==> !IsMatch(cfg, s, AddressAt(cfg, derive, s, mnemonics[k], j)))
  {
    var s := SelectScheme(cfg.blockchain, cfg.addressType).value;
    var first := FirstMatch(cfg, derive, s, mnemonics[0], 0);
    if first.Some? {
      k, i := 0, first.value;
      RoundsAtMatch(cfg, derive, mnemonics, s, i);
    } else {
      RoundsAfterMiss(cfg, derive, mnemonics, s);
      var rest := mnemonics[1..];
      var k1, i1 := RoundsFound(cfg, derive, rest);
      k, i := k1 + 1, i1;
      assert Rounds(cfg, derive, mnemonics).1 == INDICES + (k1 * INDICES + i + 1);
      EarlierGridsMiss(cfg, derive, s, mnemonics, k1);
      assert mnemonics[k] == rest[k1];
    }
  }

  /**
   * For a selectable scheme, a bounded run ends without a match exactly when
   * no address of any grid matches, and then it has counted every grid.
   */
  lemma {:induction false} RoundsExhausted(cfg: Config, derive: Deriver, mnemonics: seq<string>)
    requires SelectScheme(cfg.blockchain, cfg.addressType).Ok?
    ensures var s := SelectScheme(cfg.blockchain, cfg.addressType).value;
      Rounds(cfg, derive, mnemonics).0 == Exhausted
      <==> forall k, j :: 0 <= k < |mnemonics| && 0 <= j < INDICES ==> !IsMatch(cfg, s, AddressAt(cfg, derive, s, mnemonics[k], j))
    ensures Rounds(cfg, derive, mnemonics).0 == Exhausted ==> Rounds(cfg, derive, mnemonics).1 == |mnemonics| * INDICES
    ensures !Rounds(cfg, derive, mnemonics).0.Failed?
  {
    var s := SelectScheme(cfg.blockchain, cfg.addressType).value;
    if mnemonics != [] {
      var rest := mnemonics[1..];
      RoundsExhausted(cfg, derive, rest);
      var first := FirstMatch(cfg, derive, s, mnemonics[0], 0);
      if first.Some? {
        assert Rounds(cfg, derive, mnemonics).0.Found?;
        assert !IsMatch(cfg, s, AddressAt(cfg, derive, s, mnemonics[0], first.value)) ==> false;
      } else {
        RoundsAfterMiss(cfg, derive, mnemonics, s);
        if forall k, j :: 0 <= k < |rest| && 0 <= j < INDICES ==> !IsMatch(cfg, s, AddressAt(cfg, derive, s, rest[k], j)) {
          EarlierGridsMiss(cfg, derive, s, mnemonics, |rest|);
        } else {
          var k, j :| 0 <= k < |rest| && 0 <= j < INDICES && IsMatch(cfg, s, AddressAt(cfg, derive, s, rest[k], j));
          assert mnemonics[k + 1] == rest[k];
        }
      }
    }
  }

  /**
   * A run fails exactly when there is a mnemonic to scan and the scheme
   * cannot be selected; it then fails before counting any attempt.
   */
  lemma RoundsFailed(cfg: Config, derive: Deriver, mnemonics: seq<string>)
    ensures Rounds(cfg, derive, mnemonics).0.Failed?
        <==> mnemonics != [] && SelectScheme(cfg.blockchain, cfg.addressType).Err?
    ensures Rounds(cfg, derive, mnemonics).0.Failed? ==>
      && Rounds(cfg, derive, mnemonics).0.error == SelectScheme(cfg.blockchain, cfg.addressType).error
      && Rounds(cfg, derive, mnemonics).1 == 0
  {
    if SelectScheme(cfg.blockchain, cfg.addressType).Ok? {
      RoundsExhausted(cfg, derive, mnemonics);
    }
  }

  /** The empty pattern under "anywhere" stops the run at the very first address. */
  lemma EmptyPatternStopsAtFirstAddress(cfg: Config, derive: Deriver, mnemonics: seq<string>)
    requires cfg.substring == "" && cfg.position == ANYWHERE
    requires mnemonics != [] && SelectScheme(cfg.blockchain, cfg.addressType).Ok?
    ensures var s := SelectScheme(cfg.blockchain, cfg.addressType).value;
      Rounds(cfg, derive, mnemonics)
      == (Found(SearchResult(mnemonics[0], AddressAt(cfg, derive, s, mnemonics[0], 0), SourcePath(s, 0, 0, 0))), 1)
  {
    var s := SelectScheme(cfg.blockchain, cfg.addressType).value;
    EmptyMatchesAnywhere(AddressAt(cfg, derive, s, mnemonics[0], 0), s.startWith, cfg.caseSensitive);
    assert FirstMatch(cfg, derive, s, mnemonics[0], 0) == Some(0);
    RoundsAtMatch(cfg, derive, mnemonics, s, 0);
  }

  /** No match in the first grid and none in the next k grids: none in the first k + 1. */
  lemma EarlierGridsMiss(cfg: Config, derive: Deriver, s: Scheme, mnemonics: seq<string>, k: nat)
    requires k < |mnemonics|
    requires FirstMatch(cfg, derive, s, mnemonics[0], 0) == None
    requires forall k', j :: 0 <= k' < k && 0 <= j < INDICES ==> !IsMatch(cfg, s, AddressAt(cfg, derive, s, mnemonics[1..][k'], j))
    ensures forall k', j :: 0 <= k' < k + 1 && 0 <= j < INDICES ==> !IsMatch(cfg, s, AddressAt(cfg, derive, s, mnemonics[k'], j))
  {
    forall k', j | 0 <= k' < k + 1 && 0 <= j < INDICES
      ensures !IsMatch(cfg, s, AddressAt(cfg, derive, s, mnemonics[k'], j))
    {
      if k' > 0 {
        assert mnemonics[k'] == mnemonics[1..][k' - 1];
      }
    }
  }

  /** A round whose grid has a match ends the run with it. */
  lemma RoundsAtMatch(cfg: Config, derive: Deriver, mnemonics: seq<string>, s: Scheme, i: nat)
    requires mnemonics != []
    requires SelectScheme(cfg.blockchain, cfg.addressType) == Ok(s)
    requires FirstMatch(cfg, derive, s, mnemonics[0], 0) == Some(i)
    ensures Rounds(cfg, derive, mnemonics)
         == (Found(SearchResult(mnemonics[0], AddressAt(cfg, derive, s, mnemonics[0], i), SourcePath(s, 0, 0, i))), i + 1)
  {
  }

  /** A round whose grid has no match adds a full grid of attempts and moves to the next mnemonic. */
  lemma RoundsAfterMiss(cfg: Config, derive: Deriver, mnemonics: seq<string>, s: Scheme)
    requires mnemonics != []
    requires SelectScheme(cfg.blockchain, cfg.addressType) == Ok(s)
    requires ScanOutcome(cfg, derive, s, mnemonics[0]).0 == None
    ensures Rounds(cfg, derive, mnemonics).0 == Rounds(cfg, derive, mnemonics[1..]).0
    ensures Rounds(cfg, derive, mnemonics).1 == INDICES + Rounds(cfg, derive, mnemonics[1..]).1
  {
    var scan := ScanOutcome(cfg, derive, s, mnemonics[0]);
    assert scan == (None, INDICES);
  }

  /**
   * find_address with the endless loop bounded by the mnemonics it draws:
   * per mnemonic, the scheme is selected (which may fail) and its grid
   * scanned, until a match.
   */
  method FindAddress(counter: AttemptCounter, cfg: Config, derive: Deriver, mnemonics: seq<string>)
    returns (outcome: Outcome)
    requires counter.Valid()
    modifies counter
    ensures counter.Valid()
    ensures outcome == Rounds(cfg, derive, mnemonics).0
    ensures counter.value == old(counter.value) + Rounds(cfg, derive, mnemonics).1
  {
    var k := 0;
    while k < |mnemonics|
      invariant 0 <= k <= |mnemonics|
      invariant counter.Valid()
      invariant counter.value == old(counter.value) + k * INDICES
      invariant Rounds(cfg, derive, mnemonics).0 == Rounds(cfg, derive, mnemonics[k..]).0
      invariant Rounds(cfg, derive, mnemonics).1 == k * INDICES + Rounds(cfg, derive, mnemonics[k..]).1
    {
      ghost var rest := mnemonics[k..];
      assert rest[0] == mnemonics[k] && rest[1..] == mnemonics[k + 1..];
      var selected := SelectScheme(cfg.blockchain, cfg.addressType);
      if selected.Err? {
        outcome := Failed(selected.error);
        return;
      }
      var found, _ := ScanGrid(counter, cfg, derive, selected.value, mnemonics[k]);
      if found.Some? {
        outcome := Found(found.value);
        return;
      }
      RoundsAfterMiss(cfg, derive, rest, selected.value);
      ghost var later := Rounds(cfg, derive, mnemonics[k + 1..]);
      assert Rounds(cfg, derive, rest).0 == later.0;
      assert Rounds(cfg, derive, rest).1 == INDICES + later.1;
      k := k + 1;
    }
    outcome := Exhausted;
  }
}
