# Channel whitelist and contribution report, verified in Dafny

This project models two pieces of policy from a crowdfunding platform.

- **The subdomain constraint.** The route table uses `NonValidSubdomainConstraint.matches?` to decide whether a request's subdomain is unrecognised. It builds a whitelist from every channel's permalink and appends the reserved name `donate`. It answers `true` exactly when the subdomain is not on that list, and `true` means "redirect to the canonical site". The route table applies the constraint only outside the test environment. That choice is a separate flag (`Routes.RedirectsToCanonicalSite`), not part of the predicate. The catch-all redirect holds GET routes only, and the redirects of retired pages are declared before it.
- **The contribution report.** `ContributionReport` keeps the contributions whose state is `confirmed`, `refunded` or `requested_refund`. It wraps each in a report object, whose `attributes` flatten the contribution, its user and its reward into a 23-key record. The wrapped list is memoised in one class-level variable, `@contributions`, through `||=`. `each` and `per_project` share that memo, whatever project is passed.

Files:

- `wrappers.dfy`: `Option` (Ruby `nil`) and `Result` (a raised error).
- `subdomain_constraint.dfy`: module `NonValidSubdomainConstraint`, pure functions over a sequence of channels.
- `routes.dfy`: module `Routes`, the catch-all redirect that consults the constraint: its test-environment switch, its GET verb and the retired-page redirects declared before it.
- `contribution_report.dfy`: module `ContributionReporting`.
  - A report instance is the datatype `ContributionReport`. Building it is `new(contribution)`, which stores the contribution unchanged.
  - Its delegated readers and the `address_neighbourhood` alias are one dispatcher, `Send(name)`, which calls the reader of that name. It covers the `contribution` reader, the delegated readers and the alias only.
  - `attributes` is an ordered list of (key, value) pairs.
  - The class-level memo is the class `ContributionReportMemo`, with a `cache: Option<seq<ContributionReport>>` field.
  - The contributions table (`Contribution`) is passed to each call as it stands at that moment.
  - The pure functions `Call` and `Replay` describe one call and a series of calls, so lemmas can speak about the memo.

The model follows the code as written, including where it departs from the SQL in the class comment and from a per-scope cache:

- The memo is one variable shared by all scopes, not a cache per scope. So `per_project(p)` after `each` returns the rows of every project, and `each` after `per_project(p)` returns only `p`'s rows. `PerProjectAfterEach` and `EachAfterPerProject` prove this. `ProjectRowsAreGlobalRowsOfProject` proves what a per-scope cache would have returned.
- A contribution without a reward makes `attributes` raise at `minimum_value`. That is the first reward reader in the record, and `description` and `minimum_value` are delegated without `allow_nil`. The rows do not get null reward fields, which is what the SQL in the class comment (a LEFT JOIN) would give.
- There is no fee integrity error. `payment_service_fee` is read from the contribution like any other delegated value.
- `created_at` and `confirmed_at` are passed through unchanged. No date-only cast is applied.
- The memo caches an empty list too (an empty Ruby array is truthy), and an empty project association does not fall back to all contributions.

## Model

| member | source | states |
|---|---|---|
| NonValidSubdomainConstraint.Permalinks | app/constraints/non_valid_subdomain_constraint.rb:3 | one permalink per channel, in registry order, each the permalink of the channel at that position |
| NonValidSubdomainConstraint.Includes | app/constraints/non_valid_subdomain_constraint.rb:5 | the front-to-back `include?` scan finds `x` exactly when `x` is an element of the list |
| NonValidSubdomainConstraint.Matches | app/constraints/non_valid_subdomain_constraint.rb:2-6 | `matches?` is true (redirect) if and only if the subdomain is neither `donate` nor the permalink of some registered channel |
| NonValidSubdomainConstraint.WhiteList | app/constraints/non_valid_subdomain_constraint.rb:3-4 | a string is on the whitelist exactly when it is `donate` or the permalink of some registered channel |
| NonValidSubdomainConstraint.PermalinkMembership | app/constraints/non_valid_subdomain_constraint.rb:3 | a string is among the mapped permalinks exactly when some channel carries it |
| NonValidSubdomainConstraint.WhiteListExtendsRegistry | app/constraints/non_valid_subdomain_constraint.rb:3-4 | the whitelist is the registry's permalinks in order, followed by `donate`; the registry itself is left as it was |
| NonValidSubdomainConstraint.DonateNeverRedirected | app/constraints/non_valid_subdomain_constraint.rb:4-5 | `donate` is never redirected, for every registry, including the empty one |
| NonValidSubdomainConstraint.RegisteredNeverRedirected | app/constraints/non_valid_subdomain_constraint.rb:3-5 | the permalink of every registered channel is never redirected |
| NonValidSubdomainConstraint.OnlyPermalinkSetMatters | app/constraints/non_valid_subdomain_constraint.rb:3-5 | two registries with the same set of permalinks give the same verdict, so reordering or duplicating channels changes nothing |
| NonValidSubdomainConstraint.MoreChannelsRedirectLess | app/constraints/non_valid_subdomain_constraint.rb:3-5 | monotonicity: with a superset of permalinks, a request that is redirected was also redirected with fewer channels |
| NonValidSubdomainConstraint.AddingChannelRedirectsLess | app/constraints/non_valid_subdomain_constraint.rb:3-5 | inserting a channel anywhere can only turn a redirect into none, and the new permalink is served |
| NonValidSubdomainConstraint.EmptySubdomain | app/constraints/non_valid_subdomain_constraint.rb:5 | the empty subdomain is redirected unless some channel has an empty permalink |
| NonValidSubdomainConstraint.AcmeRegistry | app/constraints/non_valid_subdomain_constraint.rb:3-5 | with one channel `acme`: `acme` and `donate` are served, `evil` is redirected |
| Routes.RedirectsToCanonicalSite | config/routes.rb:21-30 | in the test environment, for a non-GET request, or for a retired page's path, the catch-all does not redirect; otherwise a request is redirected exactly when the constraint matches |
| ContributionReporting.ContributionReport.Send | app/models/contribution_report.rb:38-48 | a reader fails exactly when the name is none of the modelled readers (NotAReader) or is a reward reader of a rewardless contribution (DelegationError naming it) |
| ContributionReporting.ContributionReport.Attributes | app/models/contribution_report.rb:64-90 | fails with the `minimum_value` delegation error exactly when the reward is nil; otherwise its keys are the 23 listed, in order, and each value is what the reader of that name returns |
| ContributionReporting.AttributeNamesDistinct | app/models/contribution_report.rb:65-89 | the record has 23 keys and no key occurs twice |
| ContributionReporting.LookupDistinct | app/models/contribution_report.rb:65-89 | in a record with distinct keys, each key reads back the value stored with it |
| ContributionReporting.LookupMissing | app/models/contribution_report.rb:65-89 | a key that is not in the record reads as absent |
| ContributionReporting.AttributesAsHash | app/models/contribution_report.rb:64-90 | read as a hash, `attributes` holds exactly the 23 listed keys, each equal to the corresponding field of the contribution, its user or its reward |
| ContributionReporting.NeighbourhoodAlias | app/models/contribution_report.rb:44-48 | `address_neighbourhood` always equals the user's `address_neighborhood`, as a reader and in `attributes` |
| ContributionReporting.RewardlessReport | app/models/contribution_report.rb:42 | without a reward, `attributes` and `description` raise, while the contribution's own readers such as `payment_service_fee` still answer |
| ContributionReporting.WithState | app/models/contribution_report.rb:96 | `with_state` keeps only contributions of the collection whose state is listed, never more than there were |
| ContributionReporting.Source | app/models/contribution_report.rb:95 | a nil project or a nil association selects every contribution; otherwise the project's contributions are used |
| ContributionReporting.EmptyProjectReportsNothing | app/models/contribution_report.rb:95 | an empty association is not nil, so it yields no rows instead of falling back to all contributions |
| ContributionReporting.WithStateConcat | app/models/contribution_report.rb:96 | filtering distributes over concatenation, so the kept contributions stay in collection order |
| ContributionReporting.WithStateSingle | app/models/contribution_report.rb:96 | one contribution is kept exactly when its state is listed |
| ContributionReporting.WithStateCounts | app/models/contribution_report.rb:96 | each contribution is kept as often as it occurs if its state is listed, and never otherwise |
| ContributionReporting.Wrap | app/models/contribution_report.rb:97-99 | mapping `new` gives one report per contribution, and unwrapping the reports gives back exactly the contributions, in order |
| ContributionReporting.Build | app/models/contribution_report.rb:96-99 | every row comes from a contribution of the collection in a reported state, and each confirmed, refunded or requested_refund contribution yields exactly one row per occurrence; others yield none |
| ContributionReporting.BuildKeepsOrder | app/models/contribution_report.rb:96-99 | the rows of a concatenation are the rows of each part in turn, and a single contribution yields a row exactly when its state is reported |
| ContributionReporting.OfProject | app/models/contribution_report.rb:95 | a project's association holds only that project's contributions, all drawn from the table |
| ContributionReporting.RowsOfProject | app/models/contribution_report.rb:95-99 | restricting rows to a project keeps only rows of that project, drawn from the given rows |
| ContributionReporting.ProjectRowsAreGlobalRowsOfProject | app/models/contribution_report.rb:95-99 | when the association holds the project's contributions, its rows are exactly the global rows of that project, in order |
| ContributionReporting.ProjectRowsOf | app/models/contribution_report.rb:95-99 | restricting to one project commutes with building rows |
| ContributionReporting.RowsOfProjectConcat | app/models/contribution_report.rb:95-99 | restricting rows to a project distributes over concatenation |
| ContributionReporting.Call | app/models/contribution_report.rb:94-100 | one memoising call of `contributions`: the memo afterwards holds the result; a populated memo is returned as it is; an empty one yields the rows built from the selected collection |
| ContributionReporting.Replay | app/models/contribution_report.rb:94-100 | a series of calls gives one result per call |
| ContributionReporting.MemoSticksOnFirstCall | app/models/contribution_report.rb:96 | once the memo is populated every later call returns it unchanged, whatever project and table; from an empty memo every call returns what the first call built |
| ContributionReporting.PerProjectAfterEach | app/models/contribution_report.rb:50-58 | `per_project(p)` after `each` returns the rows of all contributions |
| ContributionReporting.EachAfterPerProject | app/models/contribution_report.rb:50-58 | `each` after `per_project(p)` goes over `p`'s rows only |
| ContributionReporting.ContributionReportMemo.constructor | app/models/contribution_report.rb:96 | the class starts with `@contributions` nil |
| ContributionReporting.ContributionReportMemo.Contributions | app/models/contribution_report.rb:94-100 | on a populated memo, returns it and leaves it unchanged; otherwise builds the rows of the selected collection, stores them and returns them |
| ContributionReporting.ContributionReportMemo.Each | app/models/contribution_report.rb:50-54 | fills the memo as `contributions` with no project does, calls the block once per memoised row in memo order, and returns the rows |
| ContributionReporting.ContributionReportMemo.PerProject | app/models/contribution_report.rb:56-58 | is `contributions(project)`: a populated memo is returned whatever the project |

## Left out

- The rest of `config/routes.rb` is not modelled: the redirect tables, the authentication routes, the engine mounts, the admin check and the other environment checks. The redirect itself, with its `%{wildcard}` path, is framework behaviour.
- How the framework derives `request.subdomain` from the host is not modelled. The subdomain is an input string.
- Database queries (`Channel.all`, `Contribution`, `project.contributions`, `with_state`) are input sequences in table order. Query failures are not modelled.
- `ActiveModel::Serialization` and CSV or JSON export are not modelled. The model stops at the `attributes` record.
- The methods that `extend Enumerable` derives from `each` (`map`, `select`, `to_a`, ...) are not modelled separately.
- The `contribution=` writer created by `attr_accessor` is not modelled, because no code in the class calls it.
- Routes.RedirectsToCanonicalSite: answers only for the catch-all of `config/routes.rb:25-30`, given the verb and the path. Route matching in general is not modelled, such as path formats and glob details.
- ContributionReporting.ContributionReport.Send: covers only the `contribution` reader, the delegated readers and the alias. The other methods of a report are outside it and read as `NotAReader` there: `attributes`, the `contribution=` writer, the serialization methods and the methods every Ruby object has.
- Amounts are `real` and timestamps `int`. Both are opaque pass-through values.
- The user is always present, and user, payer and payment fields are never nil. Only the reward is optional.
- ContributionReporting.ContributionReportMemo.Each: the block is a pure function of the row, and its results stand for its side effects. A block that raises, breaks or changes the memo is not modelled.
- Concurrency on the class-level memo is not modelled. The code has no guard.
