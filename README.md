# Klaxon, modelled in Dafny

Klaxon is a small Ruby library for raising, storing and escalating alerts
in a Rails application. This project models its core:

- `Klaxon.raise_alert`, which builds an alert's attributes from an
  exception and an options hash, stores the alert and enqueues the
  delivery job;
- `notify`, `watch` and `watch!`, which are built on `raise_alert`;
- the configuration: `Klaxon.config`, `Klaxon.configure` and
  `Klaxon::Config`, whose `notify` builds recipient groups and whose
  `queue` falls back to `:high`;
- recipient resolution, `Klaxon.recipients`, which matches each group's
  category and severity patterns against the alert and then flattens,
  compacts and de-duplicates the collected recipient lists;
- the delivery job, `EmailAlertJob.perform`;
- the notifier registry, `Klaxon::Notifiers`;
- the e-mail notifier's message: sender, recipient line, subject and body.

Modules, one per file:

- `Text` (`text.dfy`): `Array#join` on strings, a splitter that inverts it,
  and integer formatting.
- `RubyValues` (`ruby_values.dfy`): the Ruby values the library handles:
  nil, booleans, strings, symbols, regular expressions and arrays. Also
  truthiness, `||`, `to_s`, exceptions, and an `Outcome` that is either a
  value or a raised exception.
- `Notifiers` (`notifiers.dfy`): the registry, as a class whose hash
  field starts out nil.
- `KlaxonConfig` (`config.dfy`): `Klaxon::Config` as a class, plus the
  pure construction of one recipient group.
- `Alerts` (`alerts.dfy`): the alert record and the attributes
  `raise_alert` computes.
- `Recipients` (`recipients.dfy`): `Klaxon.recipients` as a pure function
  of the group list and the alert.
- `Klaxon` (`klaxon.dfy`): the module state as a class. Its fields are the
  lazily created configuration, the alert table, the job queue, the error
  log and the delivered mail.
- `EmailNotifier` (`email_notifier.dfy`): message composition, and
  parsers that read the `to` line, the subject and the body back.

Regular-expression matching is a parameter, `engine(re, s, i)`: "a match
of `re` begins at offset `i` of `s`". `=~` is modelled as a search for the
leftmost such offset, so a match anywhere in the string counts, including
one at offset 0. A failure of `Resque.enqueue` and a failure of the
e-mail delivery are passed in as parameters; the alert store itself never
fails in this model.

The test suite describes a later revision of the library than this code,
and the model follows the code. Under this code:

- `recipients` returns one flat list, not a hash keyed by notifier;
- `notify` passes the options through unchanged and does not add a
  `"notification"` severity;
- there is no `warn!`;
- the job class is `EmailAlertJob`;
- a failing `Resque.enqueue` propagates out of `raise_alert`;
- a missing `:category` is stored as `""`, because the
  `|| "uncategorized"` fallback follows a `to_s` and so never applies;
- a group without a `:category` entry makes `recipients` raise
  `TypeError` rather than match everything, and so does a group without a
  `:severity` entry whose category pattern matches the alert (a group
  whose category does not match is skipped before its severity pattern is
  built).

The spec/klaxon_spec.rb lines affected are 124-131, 137-139, 143-147,
179, 183-186 and 190.

## Model

| member | source | states |
|---|---|---|
| Notifiers.DefaultNotifier | lib/klaxon/notifiers.rb:3-5 | the default notifier key is the symbol `:email`, a truthy value |
| Notifiers.Find | lib/klaxon/notifiers.rb:15-17 | `hash[key]` finds something exactly when the key is stored, and then the stored notifier; otherwise nil |
| Notifiers.Store | lib/klaxon/notifiers.rb:11-13 | after `store`, the key finds the new notifier, every other key finds what it found before, and the key set grows by that key only |
| Notifiers.Registry.constructor | lib/klaxon/notifiers.rb:7-9 | a freshly loaded registry has a nil `@notifiers` |
| Notifiers.Registry.Notifiers | lib/klaxon/notifiers.rb:7-9 | the hash is created on first access and keeps its contents afterwards |
| Notifiers.Registry.Register | lib/klaxon/notifiers.rb:11-13 | `register!` stores into the (lazily created) hash, replacing an earlier entry, and returns the notifier |
| Notifiers.Registry.Lookup | lib/klaxon/notifiers.rb:15-17 | `Notifiers[key]` is the stored notifier or nil, never an error, and leaves the table as it was |
| Notifiers.RegistryScenario | lib/klaxon/notifiers.rb:7-17 | nothing is found before registration; a registered notifier is found; other keys stay unaffected; re-registration replaces |
| KlaxonConfig.RecipientList | lib/klaxon/config.rb:9 | an array of recipients is kept as it is; anything else is wrapped in a one-element array |
| KlaxonConfig.Filters | lib/klaxon/config.rb:10 | the `:of` filter hash, or an empty one when `:of` is nil |
| KlaxonConfig.NewGroup | lib/klaxon/config.rb:10-14 | the group has exactly the keys `:recipients`, `:notifier` and the filter keys; filter entries win on a clash; otherwise the notifier is `:by`, or `:email` when `:by` is nil or false |
| KlaxonConfig.Config.constructor | lib/klaxon/config.rb:3 | a new configuration has every attribute nil |
| KlaxonConfig.Config.Notify | lib/klaxon/config.rb:6-16 | a nil group list becomes empty; exactly one new group is appended; the earlier groups stay unchanged and in place |
| KlaxonConfig.Config.Queue | lib/klaxon/config.rb:18-20 | a set queue is returned unchanged; an unset one becomes `:high` and stays so |
| KlaxonConfig.Config.SetQueue | lib/klaxon/config.rb:3 | the writer stores the queue name as given |
| KlaxonConfig.Config.SetRecipientGroups | lib/klaxon/config.rb:3 | the writer stores the group list as given |
| KlaxonConfig.Config.SetFromAddress | lib/klaxon/config.rb:3 | the writer stores the sender address as given |
| KlaxonConfig.NotifyScenarios | lib/klaxon/config.rb:6-16 | with an explicit `:by`, with the default notifier, and with a lone recipient, `notify` stores the same expected group |
| KlaxonConfig.QueueScenario | lib/klaxon/config.rb:18-20 | a fresh configuration reads `:high`, and reads it again; after assignment it reads the assigned name |
| RubyValues.ToS | lib/klaxon.rb:21-23 | strings are kept and symbols give their name; the result is empty exactly for nil, the empty string and the empty symbol |
| RubyValues.PatternToS | lib/klaxon.rb:21 | `to_s` on a `Regexp` writes its options out: plain, case-insensitive and all-options patterns give `(?-mix:…)`, `(?i-mx:…)` and `(?mix:…)` |
| RubyValues.OptionLettersListed | lib/klaxon.rb:21 | each of `m`, `i` and `x` appears among the on (or off) option letters exactly when that option is on (or off) |
| Alerts.Build | lib/klaxon.rb:18-24 | severity, message and category are the options' `to_s`; the exception and backtrace are present exactly when an exception is given; the stored exception is its `to_s` and the stored backtrace its frames joined by newlines, `""` for no frames; `NoMethodError` is raised exactly for an exception with a nil backtrace |
| Alerts.MissingOptionsAreEmpty | lib/klaxon.rb:21-23 | missing options are stored as empty strings, so a missing category is `""` and not `"uncategorized"` |
| Alerts.OptionsAreStringified | lib/klaxon.rb:21-23 | symbol options are stored by name and string options as they are |
| Alerts.BacktraceReadsBack | lib/klaxon.rb:19-20 | the stored backtrace, split at newlines, gives the exception's frames back; the stored exception is its message |
| Recipients.MatchIndex | lib/klaxon.rb:63 | `=~` gives the leftmost offset at which the pattern matches; it is nil exactly when no offset matches |
| Recipients.MatchAnywhere | lib/klaxon.rb:63 | a match at any offset, including 0, makes the condition true |
| Recipients.CompileRegexp | lib/klaxon.rb:63 | `Regexp.new` keeps a regular expression as it is, options included, takes a string as an option-free source, and raises `TypeError` on anything else, nil included |
| Recipients.Applies | lib/klaxon.rb:63-67 | a group applies exactly when both patterns compile and match; it raises exactly when the category pattern fails to compile, or when the category matches and the severity pattern fails to compile |
| Recipients.MissingCategoryRaises | lib/klaxon.rb:63 | a group without a `:category` entry raises `TypeError` |
| Recipients.Collect | lib/klaxon.rb:62-68 | with the block as a parameter, the collection succeeds exactly when every group evaluates; it yields one entry per group, in order: the recipients of an applicable group, nil for the others; a failure is the first failing group's error |
| Recipients.Flatten | lib/klaxon.rb:70 | `flatten` leaves no arrays inside the result, and a list without arrays comes back unchanged; with `FlattenNested` and `FlattenAppend` this fixes the result for every list |
| Recipients.Spliced | lib/klaxon.rb:70 | one element of the list, once flattened, holds no arrays; an array stands for its own items, flattened, and any other value for itself |
| Recipients.FlattenNested | lib/klaxon.rb:70 | a nested array is replaced by its own items, flattened in turn |
| Recipients.FlattenAppend | lib/klaxon.rb:70 | flattening a concatenation is the concatenation of the flattened parts |
| Recipients.Compact | lib/klaxon.rb:70 | `compact` keeps exactly the non-nil elements, each as often as it occurred; a list without nils comes back unchanged |
| Recipients.CompactAppend | lib/klaxon.rb:70 | compacting a concatenation is the concatenation of the compacted parts, so order is kept |
| Recipients.Uniq | lib/klaxon.rb:70 | `uniq` leaves no duplicates and keeps exactly the elements it was given |
| Recipients.UniqOrder | lib/klaxon.rb:70 | `uniq` keeps elements in the order of their first occurrence |
| Recipients.CollectedRecipients | lib/klaxon.rb:62-70 | flattening and compacting the collected lists gives the applicable groups' recipients, group by group |
| Recipients.ContributedMembers | lib/klaxon.rb:62-70 | a value is contributed exactly when some applicable group's recipients contain it |
| Recipients.LeavesOfStrings | lib/klaxon.rb:64 | a group's recipient array of strings contributes exactly those strings, in order |
| Recipients.ResolveMembers | lib/klaxon.rb:56-71 | the result has no duplicates and contains exactly the recipients of the applicable groups |
| Recipients.ResolveOrder | lib/klaxon.rb:70 | recipients appear in the order they are first met, group by group |
| Recipients.ResolveRaises | lib/klaxon.rb:62-63 | resolution raises exactly when the group list is nil (`NoMethodError`) or some group cannot be evaluated, and then with the first such group's error |
| Recipients.Resolve | lib/klaxon.rb:56-71 | a nil group list raises `NoMethodError`; a result has no duplicates and holds no nil and no array |
| Recipients.ResolveEmpty | lib/klaxon.rb:62-70 | an empty group list yields no recipients |
| Klaxon.FindAlert | lib/klaxon.rb:89 | a found alert is in the table and has the requested id; nil means no stored alert has it |
| Klaxon.FindInOrder | lib/klaxon.rb:89 | in a table filled in creation order, an id is found exactly when it lies between 1 and the table's length |
| Klaxon.RaiseEffect | lib/klaxon.rb:17-29 | a failing attribute build stores and enqueues nothing; otherwise exactly one alert with the built attributes is appended; its id is enqueued and the alert returned, or an enqueue failure propagates with the alert kept |
| Klaxon.RaisedAlertIsFound | lib/klaxon.rb:26-28 | the id enqueued for a new alert finds exactly that alert, and the table stays in creation order |
| Klaxon.MissingAlertMessage | lib/klaxon.rb:91 | the logged line is the fixed "Raised alert with ID=" text, then `IntToString(id)` (whose digits read back as the id), then " but couldn't find that alert." |
| Klaxon.MissingAlertNamesId | lib/klaxon.rb:91 | two different ids never give the same log line, so the line names the missing id |
| Klaxon.State.constructor | lib/klaxon.rb:78-80 | the module starts with no configuration and nothing stored, its empty alert table in creation order |
| Klaxon.State.GetConfig | lib/klaxon.rb:78-80 | an existing configuration is returned; otherwise a fresh, empty one is created and kept |
| Klaxon.State.Configure | lib/klaxon.rb:73-76 | `configure` discards the current configuration and yields a fresh one with every attribute nil |
| Klaxon.State.RaiseAlert | lib/klaxon.rb:17-29 | the alert table, the job queue and the result are those of `RaiseEffect`; the table stays in creation order, and a returned alert is found by the id just enqueued |
| Klaxon.State.Notify | lib/klaxon.rb:32-34 | `notify` is `raise_alert` without an exception, with the options passed on unchanged; a returned alert is found by the id just enqueued |
| Klaxon.State.Watch | lib/klaxon.rb:37-43 | a block that returns raises no alert; a `StandardError` raises exactly one alert and `watch` returns it; any other exception passes through untouched |
| Klaxon.State.WatchBang | lib/klaxon.rb:46-53 | as `watch`, but the block's `StandardError` is raised again after the alert is stored, unless raising the alert itself failed |
| Klaxon.State.Recipients | lib/klaxon.rb:56-71 | `recipients` resolves against the current configuration, creating an empty one if needed, in which case the call raises |
| Klaxon.State.Perform | lib/klaxon.rb:88-92 | a found alert is mailed; a missing alert, or a mailer `RecordNotFound`, logs the "couldn't find" line and returns normally; any other mailer failure propagates |
| Klaxon.ConfigureWipesScenario | lib/klaxon.rb:73-80 | configuring again with an empty block leaves the recipient groups nil |
| Klaxon.WatchScenario | lib/klaxon.rb:37-53 | under `watch` a raising block stores one alert and returns it; under `watch!` it stores a second and re-raises the block's exception |
| Klaxon.NotifyThenPerformScenario | lib/klaxon.rb:26-28 | a notification raised without failures is mailed by the job enqueued for it, nothing is logged and the table stays in creation order |
| Klaxon.MissingAlertScenario | lib/klaxon.rb:88-92 | a job for an id that was never stored logs exactly one error and does not raise |
| EmailNotifier.Sender | lib/klaxon/notifiers/email_notifier.rb:17 | the sender is the configured address if set, else the first recipient, else nil |
| EmailNotifier.ToField | lib/klaxon/notifiers/email_notifier.rb:21 | no recipients give an empty line, one recipient gives that address alone (`ToReadsBack` covers the rest) |
| EmailNotifier.Subject | lib/klaxon/notifiers/email_notifier.rb:22 | the subject starts with `[Klaxon] [` and ends with `)` (`SubjectReadsBack` reads its fields back) |
| EmailNotifier.Body | lib/klaxon/notifiers/email_notifier.rb:7-15 | the body starts with a line break and ends with a line break and eight spaces (`BodyReadsBack` gives every line) |
| EmailNotifier.Compose | lib/klaxon/notifiers/email_notifier.rb:17-23 | the message carries the `to` line, subject and body; it has a sender exactly when one is configured or there is a recipient, and falls back to the first recipient |
| EmailNotifier.Notify | lib/klaxon/notifiers/email_notifier.rb:6-25 | the composed message uses `Klaxon.config`, creating it if needed; with no configuration the sender falls back to the first recipient |
| EmailNotifier.ToReadsBack | lib/klaxon/notifiers/email_notifier.rb:21 | the `to` line reads back as the recipient list, in order, when no address holds a comma |
| EmailNotifier.NoSenderWithoutRecipients | lib/klaxon/notifiers/email_notifier.rb:17-21 | with no configured sender and no recipients, the message has no sender and an empty `to` line |
| EmailNotifier.SubjectReadsBack | lib/klaxon/notifiers/email_notifier.rb:22 | the subject reads back as severity, message and category, when the severity holds no `]` and the category no `(` |
| EmailNotifier.BodyReadsBack | lib/klaxon/notifiers/email_notifier.rb:7-15 | the body is a blank line, the announcement, two blank lines, then Message, Category, Severity, Exception and Backtrace lines with the alert's values, then the closing indentation |
| EmailNotifier.Load | lib/klaxon/notifiers/email_notifier.rb:28 | loading the notifier registers it under `:email` |
| EmailNotifier.LoadScenario | lib/klaxon/notifiers/email_notifier.rb:28 | after loading, the default notifier key finds the e-mail notifier |

## Left out

- The regular-expression language is not modelled. Matching is the
  `engine` parameter, so the properties hold for any engine. A pattern
  carries its source and its `m`, `i` and `x` options, and the engine
  receives both. What the options mean is left to the engine. Other
  `Regexp` options (encoding flags, `o`) are not modelled. `Regexp.new`
  compile errors on malformed sources are not modelled either.
- Persistence, `Alert.create` and `Alert.find` are modelled as an
  in-memory table with ids 1, 2, 3 and so on. Validation failures in
  `Alert.create` are not modelled.
- `Resque.enqueue` is modelled as appending the id to a job list; its
  failure is a parameter. The queue's scheduling and the job's
  asynchronous run are not modelled.
- `KlaxonMailer.alert(...).deliver` is modelled as appending the alert to
  a delivered list, with its failure as a parameter. The mailer's own
  template is not part of the code here.
- `Mail.deliver` in the e-mail notifier: the model stops at the composed
  message.
- Klaxon.State.Watch: the block is given as its outcome, either a value or
  a raised exception. Code the block runs is not modelled.
- `Config#logger` (lib/klaxon/config.rb:22-30) is not modelled. It
  depends on whether Rails is loaded and on the messages of Ruby's own
  exceptions.
- The logger that `EmailAlertJob.perform` writes to is modelled as a list
  of logged lines.
- lib/klaxon/railtie.rb and lib/klaxon/rake.rb are Rails and Rake glue,
  and are not part of this model.
- RubyValues.Inspect: how an array of strings is turned into a string by
  `to_s` ignores the escaping of quotes and control characters inside
  the strings.
- EmailNotifier.Notify: the sender address and recipients are modelled as
  strings. Other Ruby values there (symbols, nested arrays) are not
  modelled.
- Backtraces of exceptions the library itself raises (`NoMethodError`,
  `TypeError`) are modelled as empty.
- KlaxonConfig.NewGroup: `:of` is modelled as a hash or nil. Other truthy
  values, on which `merge` raises, are not modelled.
- The behaviours the test suite describes for the later revision are not
  modelled, because this code does not have them. They are: a per-notifier
  hash of recipients, `NotificationJob`, the injected `"notification"`
  severity, `warn!`, and surviving an enqueue failure.
- Hash keys: groups and option hashes are modelled as maps keyed by the
  symbol's name, so a string key and a symbol key are the same key. In
  Ruby a group with string keys (as loaded from YAML, say) reads
  `group[:category]` as nil and raises `TypeError`; the model cannot
  express such a group.
- KlaxonConfig.Config.Notify: `push` appends to the very array object held
  in `recipient_groups`, so a caller that passed that array to
  `recipient_groups=` sees it grow. The group list is a value here, so
  that aliasing is not captured.
- Value kinds: integers, hashes and other objects are not among the
  modelled Ruby values, so options such as `:severity => 3` or
  `:of => false` cannot be expressed.
- `EmailAlertJob`'s queue name `:high` (lib/klaxon.rb:84) only steers
  Resque's scheduling, which is not modelled.
