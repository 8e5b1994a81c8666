/** `Klaxon::Config` (lib/klaxon/config.rb): the recipient groups, the queue
    name and the sender address, and the `notify` builder that appends one
    normalised recipient group. */
module KlaxonConfig {
  import opened RubyValues
  import Notifiers

  /** A recipient group: a hash with symbol keys, normally `:category` and
      `:severity` (regular expressions or their source strings),
      `:recipients` (an array) and `:notifier` (a registry key). */
  type Group = map<string, Value>

  /** The option hash given to `Config#notify`, by the two keys it reads:
      `:of`, a filter hash or nil, and `:by`, the notifier key or nil. */
  datatype NotifyParameters = NotifyParameters(ofFilters: Option<Group>, byNotifier: Value)

  /** The queue name `Config#queue` falls back to. */
  const DefaultQueue: Value := Sym("high")

  /** `recipients = [recipients] unless recipients.is_a? Array`. */
  function RecipientList(recipients: Value): (list: Value)
    ensures list.Arr?
    ensures recipients.Arr? ==> list == recipients
    ensures !recipients.Arr? ==> list.items == [recipients]
  {
    if recipients.Arr? then recipients else Arr([recipients])
  }

  /** `filters = parameters[:of] || {}`. */
  function Filters(parameters: NotifyParameters): (filters: Group)
    ensures parameters.ofFilters.Some? ==> filters == parameters.ofFilters.value
    ensures parameters.ofFilters.None? ==> filters == map[]
  {
    if parameters.ofFilters.Some? then parameters.ofFilters.value else map[]
  }

  /** The group `Config#notify` builds:
      `{:recipients => list, :notifier => notifier}.merge(filters)`. Every
      filter entry is kept and wins over the base entry of the same key;
      otherwise the recipients are an array and the notifier is `:by`,
      or the registry default when `:by` is nil or false. */
  function NewGroup(recipients: Value, parameters: NotifyParameters): (group: Group)
    ensures group.Keys == {"recipients", "notifier"} + Filters(parameters).Keys
    ensures forall k :: k in Filters(parameters) ==> group[k] == Filters(parameters)[k]
    ensures "recipients" !in Filters(parameters) ==> group["recipients"] == RecipientList(recipients)
    ensures "notifier" !in Filters(parameters) ==>
              group["notifier"] == (if Truthy(parameters.byNotifier) then parameters.byNotifier else Notifiers.DefaultNotifier())
  {
    map["recipients" := RecipientList(recipients), "notifier" := Or(parameters.byNotifier, Notifiers.DefaultNotifier())]
      + Filters(parameters)
  }

  /** The state of one `Klaxon::Config` object. The logger is not modelled. */
  class Config {
    /** `@recipient_groups`: nil until assigned or until `notify` first runs. */
    var recipientGroups: Option<seq<Group>>
    /** `@queue`: nil until assigned or first read. */
    var queue: Value
    /** `@from_address`: the sender override for e-mail, or nil. */
    var fromAddress: Option<string>

    /** `Config.new`: every attribute nil. */
    constructor ()
      ensures recipientGroups == None && queue == Nil && fromAddress == None
    {
      recipientGroups := None;
      queue := Nil;
      fromAddress := None;
    }

    /** The group list as `notify` sees it after `||= []`. */
    function GroupsOrEmpty(): seq<Group>
      reads this
    {
      if recipientGroups.Some? then recipientGroups.value else []
    }

    /** `Config#notify(recipients, parameters)`: creates the list if it is nil,
        then pushes exactly one new group at its end; the groups already
        stored stay as and where they were. Returns the list. */
    method Notify(recipients: Value, parameters: NotifyParameters) returns (groups: seq<Group>)
      modifies this`recipientGroups
      ensures recipientGroups == Some(groups)
      ensures groups == old(GroupsOrEmpty()) + [NewGroup(recipients, parameters)]
    {
      if recipientGroups.None? {
        recipientGroups := Some([]);
      }
      groups := recipientGroups.value + [NewGroup(recipients, parameters)];
      recipientGroups := Some(groups);
    }

    /** `Config#queue`: `@queue ||= :high`, so the first read of an unset
        queue stores the default. */
    method Queue() returns (name: Value)
      modifies this`queue
      ensures name == (if Truthy(old(queue)) then old(queue) else DefaultQueue)
      ensures queue == name
    {
      queue := Or(queue, DefaultQueue);
      name := queue;
    }

    /** `Config#queue=`. */
    method SetQueue(name: Value)
      modifies this`queue
      ensures queue == name
    {
      queue := name;
    }

    /** `Config#recipient_groups=`: stores the list as given. */
    method SetRecipientGroups(groups: Option<seq<Group>>)
      modifies this`recipientGroups
      ensures recipientGroups == groups
    {
      recipientGroups := groups;
    }

    /** `Config#from_address=`. */
    method SetFromAddress(address: Option<string>)
      modifies this`fromAddress
      ensures fromAddress == address
    {
      fromAddress := address;
    }
  }

  /** The three ways of calling `notify` that the library's own examples show:
      an explicit notifier, the default notifier, and a lone recipient. */
  method NotifyScenarios() returns (explicit: seq<Group>, defaulted: seq<Group>, wrapped: seq<Group>)
    ensures var expected := map["severity" := Pattern(Regex("critical", false, false, false)),
                                "recipients" := Arr([Str("rnubel@test.com")]),
                                "notifier" := Sym("email")];
            explicit == [expected] && defaulted == [expected] && wrapped == [expected]
  {
    var recipient, critical := Str("rnubel@test.com"), Pattern(Regex("critical", false, false, false));
    var expected := map["severity" := critical, "recipients" := Arr([recipient]), "notifier" := Sym("email")];
    var filters := Some(map["severity" := critical]);
    var c := new Config();
    explicit := c.Notify(Arr([recipient]), NotifyParameters(filters, Sym("email")));
    assert explicit[0].Keys == expected.Keys;
    assert forall k :: k in expected ==> explicit[0][k] == expected[k];
    assert explicit[0] == expected;
    c := new Config();
    defaulted := c.Notify(Arr([recipient]), NotifyParameters(filters, Nil));
    assert defaulted[0].Keys == expected.Keys;
    assert forall k :: k in expected ==> defaulted[0][k] == expected[k];
    assert defaulted[0] == expected;
    c := new Config();
    wrapped := c.Notify(recipient, NotifyParameters(filters, Sym("email")));
    assert wrapped[0].Keys == expected.Keys;
    assert forall k :: k in expected ==> wrapped[0][k] == expected[k];
    assert wrapped[0] == expected;
  }

  /** A fresh config reads its queue as `:high` and keeps reading it so;
      an assigned queue is read back as assigned. */
  method QueueScenario(newName: Value) returns (first: Value, again: Value, afterAssign: Value)
    requires Truthy(newName)
    ensures first == DefaultQueue && again == DefaultQueue
    ensures afterAssign == newName
  {
    var c := new Config();
    first := c.Queue();
    again := c.Queue();
    c.SetQueue(newName);
    afterAssign := c.Queue();
  }
}
