/**
  The contribution report: a read-only projection of contributions, together
  with their user, their optional reward and their service fee, restricted to
  the reportable states and flattened into a fixed record for export.

  The records come from the database; here they are values passed in. Amounts
  and timestamps are carried through unchanged and never computed on.
 */
module ContributionReporting {
  import opened Wrappers

  /** A monetary amount (a decimal in the database). */
  type Money = real

  /** A `created_at` or `confirmed_at` value, passed through unchanged. */
  type Timestamp = int

  /** The contributor. */
  datatype User = User(
    name: string,
    email: string,
    addressStreet: string,
    addressComplement: string,
    addressNumber: string,
    addressNeighborhood: string,
    addressCity: string,
    addressState: string,
    addressZipCode: string)

  /** The reward tier a contribution was pledged against. */
  datatype Reward = Reward(description: string, minimumValue: Money)

  /** A pledge; `paymentServiceFee` is the fee the contribution reports for itself. */
  datatype Contribution = Contribution(
    projectId: int,
    user: User,
    reward: Option<Reward>,
    value: Money,
    paymentMethod: string,
    paymentChoice: string,
    paymentServiceFee: Money,
    key: string,
    createdAt: Timestamp,
    confirmedAt: Timestamp,
    payerName: string,
    payerEmail: string,
    payerDocument: string,
    state: string)

  /**
    The argument of `per_project`: `contributions` is what
    `project.try(:contributions)` yields, `None` when that is nil.
   */
  datatype Project = Project(id: int, contributions: Option<seq<Contribution>>)

  /** What a reader of a report returns. */
  datatype Value =
    | Id(id: int)
    | Amount(amount: Money)
    | Text(text: string)
    | Time(time: Timestamp)
    | UserRecord(user: User)
    | RewardRecord(reward: Option<Reward>)
    | ContributionRecord(contribution: Contribution)

  /** The errors a reader can raise. */
  datatype ReadError =
    | DelegationError(reader: string)  // delegated to a nil reward
    | NotAReader(name: string)         // not one of the readers modelled by `Send`

  /** The states whose contributions are reported. */
  const ReportedStates: seq<string> := ["confirmed", "refunded", "requested_refund"]

  /** The keys of `attributes`, in the order the record lists them. */
  const AttributeNames: seq<string> := [
    "project_id", "name", "value", "minimum_value", "description",
    "payment_method", "payment_choice", "payment_service_fee", "key",
    "created_at", "confirmed_at", "email", "payer_email", "payer_name",
    "payer_document", "address_street", "address_complement", "address_number",
    "address_neighbourhood", "address_city", "address_state", "address_zip_code",
    "state"]

  /** The keys of an ordered record. */
  function Keys(fields: seq<(string, Value)>): seq<string>
  {
    seq(|fields|, i requires 0 <= i < |fields| => fields[i].0)
  }

  /** Reading `key` from an ordered record: the value of its first entry with that key. */
  function Lookup(fields: seq<(string, Value)>, key: string): Option<Value>
  {
    if fields == [] then None
    else if fields[0].0 == key then Some(fields[0].1)
    else Lookup(fields[1..], key)
  }

  /** No key occurs twice. */
  predicate Distinct(keys: seq<string>)
  {
    forall i, j :: 0 <= i < j < |keys| ==> keys[i] != keys[j]
  }

  /** An instance of the report, built by `new(contribution)`, which stores the contribution as given. */
  datatype ContributionReport = ContributionReport(contribution: Contribution) {

    /**
      Calling the reader `name` on the report. This dispatcher covers the
      `contribution` reader, the readers delegated to the contribution, to its
      reward and to its user, and the alias `address_neighbourhood`; every
      other name is outside it. The reward readers are delegated without
      `allow_nil`, so they raise when the contribution has no reward.
     */
    function Send(name: string): (r: Result<Value, ReadError>)
      ensures r.Failure? <==>
        name !in ReaderNames || (name in RewardReaderNames && contribution.reward.None?)
      ensures r.Failure? && name in ReaderNames ==> r.error == DelegationError(name)
      ensures r.Failure? && name !in ReaderNames ==> r.error == NotAReader(name)
    {
      var c := contribution;
      var u := c.user;
      // delegated to the contribution
      if name == "contribution" then Success(ContributionRecord(c))
      else if name == "reward" then Success(RewardRecord(c.reward))
      else if name == "user" then Success(UserRecord(u))
      else if name == "confirmed_at" then Success(Time(c.confirmedAt))
      else if name == "created_at" then Success(Time(c.createdAt))
      else if name == "key" then Success(Text(c.key))
      else if name == "payer_document" then Success(Text(c.payerDocument))
      else if name == "payer_email" then Success(Text(c.payerEmail))
      else if name == "payer_name" then Success(Text(c.payerName))
      else if name == "payment_choice" then Success(Text(c.paymentChoice))
      else if name == "payment_method" then Success(Text(c.paymentMethod))
      else if name == "payment_service_fee" then Success(Amount(c.paymentServiceFee))
      else if name == "project_id" then Success(Id(c.projectId))
      else if name == "state" then Success(Text(c.state))
      else if name == "value" then Success(Amount(c.value))
      // delegated to the reward
      else if name == "description" then
        (match c.reward
         case None => Failure(DelegationError(name))
         case Some(rw) => Success(Text(rw.description)))
      else if name == "minimum_value" then
        (match c.reward
         case None => Failure(DelegationError(name))
         case Some(rw) => Success(Amount(rw.minimumValue)))
      // delegated to the user
      else if name == "address_city" then Success(Text(u.addressCity))
      else if name == "address_complement" then Success(Text(u.addressComplement))
      else if name == "address_neighborhood" then Success(Text(u.addressNeighborhood))
      else if name == "address_number" then Success(Text(u.addressNumber))
      else if name == "address_state" then Success(Text(u.addressState))
      else if name == "address_street" then Success(Text(u.addressStreet))
      else if name == "address_zip_code" then Success(Text(u.addressZipCode))
      else if name == "email" then Success(Text(u.email))
      else if name == "name" then Success(Text(u.name))
      // the alias keeps the method it copies
      else if name == "address_neighbourhood" then Success(Text(u.addressNeighborhood))
      else Failure(NotAReader(name))
    }

    /**
      `attributes`: the 23 keys of the report record, each with the value of
      its reader. The record is built in key order, so a contribution without
      a reward raises at `minimum_value`, the first reward reader.
     */
    function Attributes(): (r: Result<seq<(string, Value)>, ReadError>)
      ensures r.Failure? <==> contribution.reward.None?
      ensures r.Failure? ==> r.error == DelegationError("minimum_value")
      ensures r.Success? ==> Keys(r.value) == AttributeNames
      ensures r.Success? ==> forall i :: 0 <= i < |r.value| ==> Send(r.value[i].0) == Success(r.value[i].1)
    {
      var c := contribution;
      var u := c.user;
      match c.reward
      case None => Failure(DelegationError("minimum_value"))
      case Some(rw) =>
        var fields := [
          ("project_id", Id(c.projectId)),
          ("name", Text(u.name)),
          ("value", Amount(c.value)),
          ("minimum_value", Amount(rw.minimumValue)),
          ("description", Text(rw.description)),
          ("payment_method", Text(c.paymentMethod)),
          ("payment_choice", Text(c.paymentChoice)),
          ("payment_service_fee", Amount(c.paymentServiceFee)),
          ("key", Text(c.key)),
          ("created_at", Time(c.createdAt)),
          ("confirmed_at", Time(c.confirmedAt)),
          ("email", Text(u.email)),
          ("payer_email", Text(c.payerEmail)),
          ("payer_name", Text(c.payerName)),
          ("payer_document", Text(c.payerDocument)),
          ("address_street", Text(u.addressStreet)),
          ("address_complement", Text(u.addressComplement)),
          ("address_number", Text(u.addressNumber)),
          ("address_neighbourhood", Text(u.addressNeighborhood)),
          ("address_city", Text(u.addressCity)),
          ("address_state", Text(u.addressState)),
          ("address_zip_code", Text(u.addressZipCode)),
          ("state", Text(c.state))];
        assert Keys(fields) == AttributeNames;
        Success(fields)
    }
  }

  /** The 23 keys of `attributes` are pairwise different. */
  lemma AttributeNamesDistinct()
    ensures |AttributeNames| == 23
    ensures Distinct(AttributeNames)
  {
  }

  /** In a record whose keys are distinct, each key reads back the value stored with it. */
  lemma {:induction false} LookupDistinct(fields: seq<(string, Value)>, i: nat)
    requires Distinct(Keys(fields))
    requires i < |fields|
    ensures Lookup(fields, fields[i].0) == Some(fields[i].1)
  {
    if i > 0 {
      assert Keys(fields[1..]) == Keys(fields)[1..];
      assert fields[0].0 == Keys(fields)[0] != Keys(fields)[i] == fields[i].0;
      LookupDistinct(fields[1..], i - 1);
    }
  }

  /** A key that is not in a record reads as absent. */
  lemma {:induction false} LookupMissing(fields: seq<(string, Value)>, key: string)
    requires key !in Keys(fields)
    ensures Lookup(fields, key) == None
  {
    if fields != [] {
      assert Keys(fields[1..]) == Keys(fields)[1..];
      assert Keys(fields)[0] == fields[0].0;
      LookupMissing(fields[1..], key);
    }
  }

  /**
    Read as a hash, `attributes` has exactly the 23 listed keys, and the value
    under each key is what the reader of that name returns.
   */
  lemma AttributesAsHash(report: ContributionReport, key: string)
    requires report.contribution.reward.Some?
    ensures Lookup(report.Attributes().value, key).Some? <==> key in AttributeNames
    ensures key in AttributeNames ==>
      report.Send(key) == Success(Lookup(report.Attributes().value, key).value)
  {
    var fields := report.Attributes().value;
    AttributeNamesDistinct();
    if key in AttributeNames {
      var i :| 0 <= i < |AttributeNames| && AttributeNames[i] == key;
      assert Keys(fields)[i] == fields[i].0;
      LookupDistinct(fields, i);
    } else {
      LookupMissing(fields, key);
    }
  }

  /**
    `address_neighbourhood` is an alias: it reads the user's
    `address_neighborhood`, both as a reader and in `attributes`.
   */
  lemma NeighbourhoodAlias(report: ContributionReport)
    ensures report.Send("address_neighbourhood") == report.Send("address_neighborhood")
    ensures report.Send("address_neighbourhood") == Success(Text(report.contribution.user.addressNeighborhood))
    ensures report.contribution.reward.Some? ==>
      Lookup(report.Attributes().value, "address_neighbourhood") == Some(Text(report.contribution.user.addressNeighborhood))
  {
    if report.contribution.reward.Some? {
      AttributesAsHash(report, "address_neighbourhood");
    }
  }

  /**
    A rewardless contribution has no record at all: its reward readers raise
    instead of yielding nil, while the readers of the contribution and the
    user still answer.
   */
  lemma RewardlessReport(report: ContributionReport)
    requires report.contribution.reward.None?
    ensures report.Attributes() == Failure(DelegationError("minimum_value"))
    ensures report.Send("description") == Failure(DelegationError("description"))
    ensures report.Send("payment_service_fee") == Success(Amount(report.contribution.paymentServiceFee))
  {
  }

  /** Every reader a report answers to. */
  const ReaderNames: set<string> := {
    "contribution", "reward", "user", "confirmed_at", "created_at", "key",
    "payer_document", "payer_email", "payer_name", "payment_choice",
    "payment_method", "payment_service_fee", "project_id", "state", "value",
    "description", "minimum_value",
    "address_city", "address_complement", "address_neighborhood",
    "address_number", "address_state", "address_street", "address_zip_code",
    "email", "name", "address_neighbourhood"}

  /** The readers delegated to the reward. */
  const RewardReaderNames: set<string> := {"description", "minimum_value"}

  /** `with_state(*states)`: the contributions whose state is one of `states`, in collection order. */
  function WithState(collection: seq<Contribution>, states: seq<string>): (kept: seq<Contribution>)
    ensures |kept| <= |collection|
    ensures forall c :: c in kept ==> c in collection && c.state in states
  {
    if collection == [] then []
    else if collection[0].state in states then [collection[0]] + WithState(collection[1..], states)
    else WithState(collection[1..], states)
  }

  /** `map { |contribution| new(contribution) }`: one report per contribution, in order. */
  function Wrap(contributions: seq<Contribution>): (rows: seq<ContributionReport>)
    ensures |rows| == |contributions|
    ensures Unwrap(rows) == contributions
  {
    seq(|contributions|, i requires 0 <= i < |contributions| => ContributionReport(contributions[i]))
  }

  /** The contributions behind a list of reports. */
  function Unwrap(rows: seq<ContributionReport>): seq<Contribution>
  {
    seq(|rows|, i requires 0 <= i < |rows| => rows[i].contribution)
  }

  /**
    The rows built from one collection, before memoisation. Rows are
    one-for-one with the reported contributions: each row wraps a contribution
    of the collection whose state is confirmed, refunded or requested_refund,
    each such contribution yields exactly one row per occurrence, and every
    other contribution yields none.
   */
  function Build(collection: seq<Contribution>): (rows: seq<ContributionReport>)
    ensures forall row :: row in rows ==>
      row.contribution in collection && row.contribution.state in ReportedStates
    ensures forall c ::
      multiset(Unwrap(rows))[c] == if c.state in ReportedStates then multiset(collection)[c] else 0
  {
    var kept := WithState(collection, ReportedStates);
    var rows := Wrap(kept);
    assert forall c ::
        multiset(Unwrap(rows))[c] == if c.state in ReportedStates then multiset(collection)[c] else 0 by {
      forall c ensures multiset(kept)[c] == if c.state in ReportedStates then multiset(collection)[c] else 0 {
        WithStateCounts(collection, ReportedStates, c);
      }
    }
    assert forall row :: row in rows ==> row.contribution in kept by {
      forall row | row in rows ensures row.contribution in kept {
        var i :| 0 <= i < |rows| && rows[i] == row;
        assert Unwrap(rows)[i] == kept[i];
      }
    }
    rows
  }

  /** `project.try(:contributions) || Contribution`: the collection a call reports on. */
  function Source(project: Option<Project>, all: seq<Contribution>): (collection: seq<Contribution>)
    ensures project.None? ==> collection == all
    ensures project.Some? && project.value.contributions.None? ==> collection == all
    ensures project.Some? && project.value.contributions.Some? ==>
      collection == project.value.contributions.value
  {
    match project
    case None => all
    case Some(p) =>
      match p.contributions
      case None => all
      case Some(cs) => cs
  }

  /**
    An empty association is not nil, so it does not fall back to every
    contribution: such a project reports no rows.
   */
  lemma EmptyProjectReportsNothing(id: int, all: seq<Contribution>)
    ensures Source(Some(Project(id, Some([]))), all) == []
    ensures Build(Source(Some(Project(id, Some([]))), all)) == []
  {
  }

  /** Filtering distributes over concatenation, so it never reorders what it keeps. */
  lemma {:induction false} WithStateConcat(a: seq<Contribution>, b: seq<Contribution>, states: seq<string>)
    ensures WithState(a + b, states) == WithState(a, states) + WithState(b, states)
  {
    if a != [] {
      assert (a + b)[0] == a[0] && (a + b)[1..] == a[1..] + b;
      WithStateConcat(a[1..], b, states);
    } else {
      assert a + b == b;
    }
  }

  /** Filtering one contribution keeps it exactly when its state is listed. */
  lemma WithStateSingle(c: Contribution, states: seq<string>)
    ensures WithState([c], states) == if c.state in states then [c] else []
  {
    assert [c][1..] == [];
  }

  /**
    Every contribution is kept exactly as often as it occurs when its state is
    listed, and never otherwise.
   */
  lemma {:induction false} WithStateCounts(collection: seq<Contribution>, states: seq<string>, c: Contribution)
    ensures multiset(WithState(collection, states))[c] ==
      if c.state in states then multiset(collection)[c] else 0
  {
    if collection != [] {
      assert collection == [collection[0]] + collection[1..];
      WithStateCounts(collection[1..], states, c);
    }
  }

  /**
    Building keeps the order of the collection: rows of a concatenation are the
    rows of each part, one after the other, and a single contribution yields a
    row exactly when its state is reported.
   */
  lemma BuildKeepsOrder(a: seq<Contribution>, b: seq<Contribution>, c: Contribution)
    ensures Build(a + b) == Build(a) + Build(b)
    ensures Build([c]) == if c.state in ReportedStates then [ContributionReport(c)] else []
  {
    var ka, kb := WithState(a, ReportedStates), WithState(b, ReportedStates);
    WithStateConcat(a, b, ReportedStates);
    assert Wrap(ka + kb) == Wrap(ka) + Wrap(kb);
    WithStateSingle(c, ReportedStates);
  }

  /** The contributions of one project, in table order: what its association holds. */
  function OfProject(all: seq<Contribution>, id: int): (cs: seq<Contribution>)
    ensures forall c :: c in cs ==> c in all && c.projectId == id
  {
    if all == [] then []
    else if all[0].projectId == id then [all[0]] + OfProject(all[1..], id)
    else OfProject(all[1..], id)
  }

  /** The rows that belong to one project, in order. */
  function RowsOfProject(rows: seq<ContributionReport>, id: int): (kept: seq<ContributionReport>)
    ensures forall row :: row in kept ==> row in rows && row.contribution.projectId == id
  {
    if rows == [] then []
    else if rows[0].contribution.projectId == id then [rows[0]] + RowsOfProject(rows[1..], id)
    else RowsOfProject(rows[1..], id)
  }

  /**
    When a project's association holds the project's contributions, building
    from it yields exactly the global rows of that project, in the same order.
   */
  lemma {:induction false} ProjectRowsAreGlobalRowsOfProject(all: seq<Contribution>, p: Project)
    requires p.contributions == Some(OfProject(all, p.id))
    ensures Build(Source(Some(p), all)) == RowsOfProject(Build(all), p.id)
  {
    ProjectRowsOf(all, p.id);
  }

  /** Restricting to one project commutes with building the rows. */
  lemma {:induction false} ProjectRowsOf(all: seq<Contribution>, id: int)
    ensures Build(OfProject(all, id)) == RowsOfProject(Build(all), id)
  {
    if all != [] {
      var c, rest := all[0], all[1..];
      assert all == [c] + rest;
      ProjectRowsOf(rest, id);
      BuildKeepsOrder([c], rest, c);
      if c.projectId == id {
        BuildKeepsOrder([c], OfProject(rest, id), c);
      }
      RowsOfProjectConcat(Build([c]), Build(rest), id);
    }
  }

  /** Restricting rows to one project distributes over concatenation. */
  lemma {:induction false} RowsOfProjectConcat(a: seq<ContributionReport>, b: seq<ContributionReport>, id: int)
    ensures RowsOfProject(a + b, id) == RowsOfProject(a, id) + RowsOfProject(b, id)
  {
    if a != [] {
      assert (a + b)[0] == a[0] && (a + b)[1..] == a[1..] + b;
      RowsOfProjectConcat(a[1..], b, id);
    } else {
      assert a + b == b;
    }
  }

  /**
    One call of `contributions(project)`: `@contributions ||= ...` returns the
    memoised rows when there are any and otherwise builds, stores and returns
    them. The first component is the result, the second the memo afterwards.
   */
  function Call(memo: Option<seq<ContributionReport>>, project: Option<Project>, all: seq<Contribution>)
    : (out: (seq<ContributionReport>, Option<seq<ContributionReport>>))
    ensures out.1 == Some(out.0)
    ensures memo.Some? ==> out.0 == memo.value
    ensures memo.None? ==> out.0 == Build(Source(project, all))
  {
    match memo
    case Some(rows) => (rows, memo)
    case None =>
      var rows := Build(Source(project, all));
      (rows, Some(rows))
  }

  /**
    The results of a series of calls, each with its project argument and the
    contributions table as it is at that moment.
   */
  function Replay(memo: Option<seq<ContributionReport>>, calls: seq<(Option<Project>, seq<Contribution>)>)
    : (results: seq<seq<ContributionReport>>)
    ensures |results| == |calls|
    decreases |calls|
  {
    if calls == [] then []
    else
      var (rows, memo') := Call(memo, calls[0].0, calls[0].1);
      [rows] + Replay(memo', calls[1..])
  }

  /**
    The memo sticks on the first call: once populated, every later call returns
    the same rows, whatever project it passes and whatever the table holds by
    then; on an empty memo every call returns what the first one built.
   */
  lemma {:induction false} MemoSticksOnFirstCall(
    memo: Option<seq<ContributionReport>>, calls: seq<(Option<Project>, seq<Contribution>)>)
    ensures memo.Some? ==> forall k :: 0 <= k < |calls| ==> Replay(memo, calls)[k] == memo.value
    ensures memo.None? && calls != [] ==>
      forall k :: 0 <= k < |calls| ==> Replay(memo, calls)[k] == Build(Source(calls[0].0, calls[0].1))
    decreases |calls|
  {
    if calls != [] {
      var (rows, memo') := Call(memo, calls[0].0, calls[0].1);
      MemoSticksOnFirstCall(memo', calls[1..]);
    }
  }

  /** `per_project(p)` after `each` returns the rows of every project, not those of `p`. */
  lemma PerProjectAfterEach(all: seq<Contribution>, p: Project, later: seq<Contribution>)
    ensures Replay(None, [(None, all), (Some(p), later)])[1] == Build(all)
  {
    MemoSticksOnFirstCall(None, [(None, all), (Some(p), later)]);
  }

  /** `each` after `per_project(p)` goes over the rows of `p` only. */
  lemma EachAfterPerProject(all: seq<Contribution>, p: Project, later: seq<Contribution>)
    ensures Replay(None, [(Some(p), all), (None, later)])[1] == Build(Source(Some(p), all))
  {
    MemoSticksOnFirstCall(None, [(Some(p), all), (None, later)]);
  }

  /**
    The class-level state of ContributionReport: the memo `@contributions`,
    shared by `each` and `per_project`. The contributions table is passed to
    each call as it is at that moment.
   */
  class ContributionReportMemo {
    /** `@contributions`: nil until the first call, then the rows it stored. */
    var cache: Option<seq<ContributionReport>>

    /** The class as loaded: nothing memoised yet. */
    constructor ()
      ensures cache == None
    {
      cache := None;
    }

    /** `contributions(project = nil)`: the memoised rows, built on the first call only. */
    method Contributions(project: Option<Project>, all: seq<Contribution>) returns (rows: seq<ContributionReport>)
      modifies this
      ensures (rows, cache) == Call(old(cache), project, all)
      ensures old(cache).Some? ==> rows == old(cache).value && cache == old(cache)
      ensures old(cache).None? ==> rows == Build(Source(project, all)) && cache == Some(rows)
    {
      var collection := Source(project, all);
      if cache.None? {
        var kept := WithState(collection, ReportedStates);
        var built: seq<ContributionReport> := [];
        var i := 0;
        while i < |kept|
          invariant 0 <= i <= |kept|
          invariant built == Wrap(kept[..i])
        {
          built := built + [ContributionReport(kept[i])];
          i := i + 1;
        }
        assert kept[..i] == kept;
        cache := Some(built);
      }
      rows := cache.value;
    }

    /**
      `each(&block)`: calls the block once per memoised row, in memo order, and
      returns the rows. The block is a function of the row; `effects` lists what
      each call produced, in call order.
     */
    method Each<E>(block: ContributionReport -> E, all: seq<Contribution>) returns (effects: seq<E>, rows: seq<ContributionReport>)
      modifies this
      ensures (rows, cache) == Call(old(cache), None, all)
      ensures |effects| == |rows|
      ensures forall i :: 0 <= i < |rows| ==> effects[i] == block(rows[i])
    {
      rows := Contributions(None, all);
      effects := [];
      var i := 0;
      while i < |rows|
        invariant 0 <= i <= |rows|
        invariant |effects| == i
        invariant forall k :: 0 <= k < i ==> effects[k] == block(rows[k])
      {
        effects := effects + [block(rows[i])];
        i := i + 1;
      }
    }

    /** `per_project(project)`: the memoised rows, whatever the project. */
    method PerProject(project: Option<Project>, all: seq<Contribution>) returns (rows: seq<ContributionReport>)
      modifies this
      ensures (rows, cache) == Call(old(cache), project, all)
      ensures old(cache).Some? ==> rows == old(cache).value && cache == old(cache)
    {
      rows := Contributions(project, all);
    }
  }
}
