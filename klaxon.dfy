/** The `Klaxon` module (lib/klaxon.rb): raising alerts, the `notify`,
    `watch` and `watch!` entry points, the lazily created configuration and
    its reset by `configure`, recipient lookup against that configuration,
    and the delivery job. The alert store, the job queue, the logger and the
    mailer are collaborators; their observable state is kept in fields and
    their failures are given as parameters. */
module Klaxon {
  import opened RubyValues
  import opened Text
  import opened Alerts
  import opened KlaxonConfig
  import Resolution = Recipients

  /** The class name `Alert.find` raises when no alert has the id. */
  const RecordNotFound: string := "ActiveRecord::RecordNotFound"

  /** The alert with the given id, or nil: `Alert.find` without its exception. */
  function FindAlert(alerts: seq<Alert>, id: int): (found: Option<Alert>)
    ensures found.Some? ==> found.value in alerts && found.value.id == id
    ensures found.None? ==> forall i :: 0 <= i < |alerts| ==> alerts[i].id != id
  {
    if alerts == [] then None
    else if alerts[0].id == id then Some(alerts[0])
    else FindAlert(alerts[1..], id)
  }

  /** The table as the store fills it: ids 1, 2, 3, ... in creation order. */
  predicate IdsInOrder(alerts: seq<Alert>)
  {
    forall i :: 0 <= i < |alerts| ==> alerts[i].id == i + 1
  }

  /** What one `raise_alert` call returns, and the alert table and job queue
      it leaves behind. */
  datatype Effect = Effect(result: Outcome<Alert>, alerts: seq<Alert>, jobs: seq<nat>)

  /** `raise_alert(exception, options)` (lib/klaxon.rb:17-29): build the
      attributes; `Alert.create` stores them under the next id; then
      `Resque.enqueue(EmailAlertJob, alert.id)`. A failing `join` stores
      nothing; a failing enqueue propagates, after the alert was stored. */
  function RaiseEffect(alerts: seq<Alert>, jobs: seq<nat>, exception: Option<Exception>,
                       options: Options, enqueueFailure: Option<Exception>): (effect: Effect)
    ensures Build(exception, options).Raised? ==>
              effect == Effect(Raised(Build(exception, options).error), alerts, jobs)
    ensures Build(exception, options).Ok? ==>
              && |effect.alerts| == |alerts| + 1
              && effect.alerts[..|alerts|] == alerts
              && effect.alerts[|alerts|].fields == Build(exception, options).value
              && (enqueueFailure.None? ==>
                    effect.result == Ok(effect.alerts[|alerts|]) && effect.jobs == jobs + [effect.alerts[|alerts|].id])
              && (enqueueFailure.Some? ==>
                    effect.result == Raised(enqueueFailure.value) && effect.jobs == jobs)
  {
    match Build(exception, options)
    case Raised(e) => Effect(Raised(e), alerts, jobs)
    case Ok(fields) =>
      var created := Alert(|alerts| + 1, fields);
      if enqueueFailure.Some? then Effect(Raised(enqueueFailure.value), alerts + [created], jobs)
      else Effect(Ok(created), alerts + [created], jobs + [created.id])
  }

  /** A stored alert gets the next id, so the table stays in order, and the
      job enqueued for it finds exactly that alert. */
  lemma {:induction false} RaisedAlertIsFound(alerts: seq<Alert>, jobs: seq<nat>, exception: Option<Exception>,
                                               options: Options)
    requires IdsInOrder(alerts)
    requires Build(exception, options).Ok?
    ensures var effect := RaiseEffect(alerts, jobs, exception, options, None);
            && IdsInOrder(effect.alerts)
            && effect.result.Ok?
            && FindAlert(effect.alerts, effect.jobs[|jobs|]) == Some(effect.result.value)
  {
    var effect := RaiseEffect(alerts, jobs, exception, options, None);
    var created := effect.result.value;
    assert effect.alerts == alerts + [created];
    FindAfter(alerts, created);
  }

  /** Searching a table in order for the id one past its end finds the alert appended with it. */
  lemma {:induction false} FindAfter(alerts: seq<Alert>, created: Alert)
    requires forall i :: 0 <= i < |alerts| ==> alerts[i].id < created.id
    ensures FindAlert(alerts + [created], created.id) == Some(created)
  {
    if alerts != [] {
      assert (alerts + [created])[1..] == alerts[1..] + [created];
      FindAfter(alerts[1..], created);
    }
  }

  /** Unsaved ids are not found: the table holds ids 1 to its length. */
  lemma {:induction false} FindInOrder(alerts: seq<Alert>, id: int)
    requires IdsInOrder(alerts)
    ensures FindAlert(alerts, id).Some? <==> 1 <= id <= |alerts|
  {
    if 1 <= id <= |alerts| {
      FindPresent(alerts, id, id - 1);
    }
  }

  /** An id present somewhere in the table is found. */
  lemma {:induction false} FindPresent(alerts: seq<Alert>, id: int, k: nat)
    requires k < |alerts| && alerts[k].id == id
    ensures FindAlert(alerts, id).Some?
  {
    if alerts[0].id != id {
      assert alerts[1..][k - 1] == alerts[k];
      FindPresent(alerts[1..], id, k - 1);
    }
  }

  /** What `watch` returns: the block's value, or the alert it raised. */
  datatype WatchResult = BlockValue(value: Value) | AlertRaised(alert: Alert)

  /** The text of the "couldn't find" log line before and after the id. */
  const MissingPrefix: string := "Raised alert with ID="
  const MissingSuffix: string := " but couldn't find that alert."

  /** The log line `EmailAlertJob.perform` writes when the alert is gone:
      the fixed text around the id, written in decimal. */
  function MissingAlertMessage(id: int): (line: string)
    ensures |line| > |MissingPrefix| + |MissingSuffix|
    ensures line[..|MissingPrefix|] == MissingPrefix
    ensures line[|line| - |MissingSuffix|..] == MissingSuffix
    ensures forall k :: |MissingPrefix| <= k < |line| - |MissingSuffix| ==> line[k] == '-' || '0' <= line[k] <= '9'
    ensures line[|MissingPrefix|..|line| - |MissingSuffix|] == IntToString(id)
  {
    var digits := IntToString(id);
    Framed(MissingPrefix, digits, MissingSuffix);
    MissingPrefix + digits + MissingSuffix
  }

  /** Where the three parts of `prefix + middle + suffix` sit. */
  lemma Framed(prefix: string, middle: string, suffix: string)
    ensures var line := prefix + middle + suffix;
            && |line| == |prefix| + |middle| + |suffix|
            && line[..|prefix|] == prefix
            && line[|line| - |suffix|..] == suffix
            && line[|prefix|..|line| - |suffix|] == middle
            && forall k :: |prefix| <= k < |line| - |suffix| ==> line[k] == middle[k - |prefix|]
  {
    var line := prefix + middle + suffix;
    assert line[|prefix|..|line| - |suffix|] == middle;
  }

  /** The log line names the id: two different ids never give the same line. */
  lemma MissingAlertNamesId(a: int, b: int)
    requires MissingAlertMessage(a) == MissingAlertMessage(b)
    ensures a == b
  {
    var line := MissingAlertMessage(a);
    assert IntToString(a) == line[|MissingPrefix|..|line| - |MissingSuffix|] == IntToString(b);
    IntToStringInjective(a, b);
  }

  /** The state of the `Klaxon` module and of its collaborators. */
  class State {
    /** `@config`: nil until `Klaxon.config` first creates it. */
    var config: Config?
    /** The alert table behind `Alert.create` and `Alert.find`. */
    var alerts: seq<Alert>
    /** The ids enqueued for `EmailAlertJob` on its queue. */
    var jobs: seq<nat>
    /** The lines logged with `Alert.logger.error`. */
    var errors: seq<string>
    /** The alerts `KlaxonMailer` delivered. */
    var mailed: seq<Alert>

    /** The alert table is filled as the store fills it, so that the id
        enqueued for an alert finds that alert. */
    predicate Valid()
      reads this
    {
      IdsInOrder(alerts)
    }

    /** The module as loaded: no configuration and nothing stored yet. */
    constructor ()
      ensures Valid()
      ensures config == null && alerts == [] && jobs == [] && errors == [] && mailed == []
    {
      config := null;
      alerts := [];
      jobs := [];
      errors := [];
      mailed := [];
    }

    /** `Klaxon.config`: `@config ||= Config.new`. */
    method GetConfig() returns (c: Config)
      modifies this`config
      ensures config == c
      ensures old(config) != null ==> c == old(config)
      ensures old(config) == null ==>
                fresh(c) && c.recipientGroups == None && c.queue == Nil && c.fromAddress == None
    {
      if config == null {
        config := new Config();
      }
      c := config;
    }

    /** `Klaxon.configure`: drops the current configuration, then yields a
        fresh one; the returned object is the one the block receives, so
        whatever the block does not set stays nil. */
    method Configure() returns (c: Config)
      modifies this`config
      ensures config == c && fresh(c)
      ensures c.recipientGroups == None && c.queue == Nil && c.fromAddress == None
    {
      config := null;
      c := GetConfig();
    }

    /** `Klaxon.raise_alert(exception, options)`. */
    method RaiseAlert(exception: Option<Exception>, options: Options, enqueueFailure: Option<Exception>)
      returns (r: Outcome<Alert>)
      requires Valid()
      modifies this`alerts, this`jobs
      ensures Valid()
      ensures Effect(r, alerts, jobs) == RaiseEffect(old(alerts), old(jobs), exception, options, enqueueFailure)
      ensures r.Ok? ==> |jobs| >= 1 && FindAlert(alerts, jobs[|jobs| - 1]) == Some(r.value)
    {
      var built := Build(exception, options);
      if built.Raised? {
        return Raised(built.error);
      }
      RaisedAlertIsFound(alerts, jobs, exception, options);
      var created := Alert(|alerts| + 1, built.value);
      alerts := alerts + [created];
      if enqueueFailure.Some? {
        return Raised(enqueueFailure.value);
      }
      jobs := jobs + [created.id];
      r := Ok(created);
    }

    /** `Klaxon.notify(options)`: exactly `raise_alert(nil, options)`, with
        the options passed on unchanged. */
    method Notify(options: Options, enqueueFailure: Option<Exception>) returns (r: Outcome<Alert>)
      requires Valid()
      modifies this`alerts, this`jobs
      ensures Valid()
      ensures Effect(r, alerts, jobs) == RaiseEffect(old(alerts), old(jobs), None, options, enqueueFailure)
      ensures r.Ok? ==> |jobs| >= 1 && FindAlert(alerts, jobs[|jobs| - 1]) == Some(r.value)
    {
      r := RaiseAlert(None, options, enqueueFailure);
    }

    /** `Klaxon.watch(options) { block }`, the block's run given as `block`.
        A block that returns raises no alert; a `StandardError` from it
        raises exactly one alert and is then swallowed, `watch` returning
        that alert; any other exception passes through untouched. */
    method Watch(options: Options, block: Outcome<Value>, enqueueFailure: Option<Exception>)
      returns (r: Outcome<WatchResult>)
      requires Valid()
      modifies this`alerts, this`jobs
      ensures Valid()
      ensures block.Ok? ==> r == Ok(BlockValue(block.value)) && alerts == old(alerts) && jobs == old(jobs)
      ensures block.Raised? && !block.error.standardError ==>
                r == Raised(block.error) && alerts == old(alerts) && jobs == old(jobs)
      ensures block.Raised? && block.error.standardError ==>
                var effect := RaiseEffect(old(alerts), old(jobs), Some(block.error), options, enqueueFailure);
                && alerts == effect.alerts && jobs == effect.jobs
                && r == (if effect.result.Ok? then Ok(AlertRaised(effect.result.value)) else Raised(effect.result.error))
    {
      if block.Ok? {
        return Ok(BlockValue(block.value));
      }
      if !block.error.standardError {
        return Raised(block.error);
      }
      var raised := RaiseAlert(Some(block.error), options, enqueueFailure);
      if raised.Ok? {
        r := Ok(AlertRaised(raised.value));
      } else {
        r := Raised(raised.error);
      }
    }

    /** `Klaxon.watch!(options) { block }`: as `watch`, but after raising the
        alert it re-raises the block's own exception (unless raising the
        alert itself raised, whose exception then propagates instead). */
    method WatchBang(options: Options, block: Outcome<Value>, enqueueFailure: Option<Exception>)
      returns (r: Outcome<Value>)
      requires Valid()
      modifies this`alerts, this`jobs
      ensures Valid()
      ensures block.Ok? ==> r == block && alerts == old(alerts) && jobs == old(jobs)
      ensures block.Raised? && !block.error.standardError ==>
                r == block && alerts == old(alerts) && jobs == old(jobs)
      ensures block.Raised? && block.error.standardError ==>
                var effect := RaiseEffect(old(alerts), old(jobs), Some(block.error), options, enqueueFailure);
                && alerts == effect.alerts && jobs == effect.jobs
                && r == (if effect.result.Ok? then block else Raised(effect.result.error))
    {
      if block.Ok? || !block.error.standardError {
        return block;
      }
      var raised := RaiseAlert(Some(block.error), options, enqueueFailure);
      if raised.Ok? {
        r := block;
      } else {
        r := Raised(raised.error);
      }
    }

    /** `Klaxon.recipients(alert)`: resolves against the current
        configuration, creating an empty one first if there is none (whose
        nil group list then makes the call raise). */
    method Recipients(engine: Resolution.Engine, alert: Alert) returns (r: Outcome<seq<Value>>)
      modifies this`config
      ensures config != null
      ensures old(config) != null ==> config == old(config)
      ensures r == Resolution.Resolve(engine, config.recipientGroups, alert)
      ensures old(config) == null ==> r.Raised?
    {
      var c := GetConfig();
      r := Resolution.Resolve(engine, c.recipientGroups, alert);
    }

    /** `EmailAlertJob.perform(alert_id)`: finds the alert and mails it.
        When the alert is missing, `ActiveRecord::RecordNotFound` is rescued:
        an error naming the id is logged and the job returns normally. A
        mailer failure of that same class is rescued the same way; any other
        mailer failure propagates. */
    method Perform(alertId: int, deliveryFailure: Option<Exception>) returns (r: Outcome<()>)
      modifies this`errors, this`mailed
      ensures var found := FindAlert(alerts, alertId);
              && (found.None? ==>
                    r == Ok(()) && errors == old(errors) + [MissingAlertMessage(alertId)] && mailed == old(mailed))
              && (found.Some? && deliveryFailure.None? ==>
                    r == Ok(()) && errors == old(errors) && mailed == old(mailed) + [found.value])
              && (found.Some? && deliveryFailure.Some? && deliveryFailure.value.className == RecordNotFound ==>
                    r == Ok(()) && errors == old(errors) + [MissingAlertMessage(alertId)] && mailed == old(mailed))
              && (found.Some? && deliveryFailure.Some? && deliveryFailure.value.className != RecordNotFound ==>
                    r == Raised(deliveryFailure.value) && errors == old(errors) && mailed == old(mailed))
    {
      var found := FindAlert(alerts, alertId);
      var failure: Option<Exception>;
      if found.None? {
        failure := Some(LibraryRaised(RecordNotFound, "Couldn't find Alert"));
      } else {
        failure := deliveryFailure;
        if failure.None? {
          mailed := mailed + [found.value];
        }
      }
      if failure.None? {
        r := Ok(());
      } else if failure.value.className == RecordNotFound {
        errors := errors + [MissingAlertMessage(alertId)];
        r := Ok(());
      } else {
        r := Raised(failure.value);
      }
    }
  }

  /** Configuring with an empty block after a configuration that set the
      groups leaves the groups nil. */
  method ConfigureWipesScenario() returns (groups: Option<seq<Group>>)
    ensures groups == None
  {
    var klaxon := new State();
    var c := klaxon.Configure();
    c.SetRecipientGroups(Some([]));
    c := klaxon.Configure();
    c := klaxon.GetConfig();
    groups := c.recipientGroups;
  }

  /** A block raising a `StandardError` under `watch` returns normally with
      one alert stored and one job enqueued; under `watch!` the same alert is
      raised and the block's exception comes back out. */
  method WatchScenario(e: Exception, options: Options)
    returns (watched: Outcome<WatchResult>, stored: nat, bang: Outcome<Value>, storedAfterBang: nat)
    requires e.standardError && e.backtrace.Some?
    ensures watched.Ok? && watched.value.AlertRaised? && stored == 1
    ensures bang == Raised(e) && storedAfterBang == 2
  {
    var klaxon := new State();
    watched := klaxon.Watch(options, Raised(e), None);
    stored := |klaxon.alerts|;
    bang := klaxon.WatchBang(options, Raised(e), None);
    storedAfterBang := |klaxon.alerts|;
  }

  /** A notification raised without failures is mailed by the job enqueued
      for it, and nothing is logged. */
  method NotifyThenPerformScenario(klaxon: State, options: Options)
    returns (raised: Outcome<Alert>, performed: Outcome<()>)
    requires klaxon.Valid()
    modifies klaxon
    ensures klaxon.Valid()
    ensures raised.Ok? && performed == Ok(())
    ensures klaxon.mailed == old(klaxon.mailed) + [raised.value]
    ensures klaxon.errors == old(klaxon.errors)
  {
    raised := klaxon.Notify(options, None);
    performed := klaxon.Perform(klaxon.jobs[|klaxon.jobs| - 1], None);
  }

  /** A job for an id that was never stored logs an error and does not raise. */
  method MissingAlertScenario(id: int, deliveryFailure: Option<Exception>)
    returns (r: Outcome<()>, logged: seq<string>)
    ensures r == Ok(())
    ensures logged == [MissingAlertMessage(id)]
  {
    var klaxon := new State();
    r := klaxon.Perform(id, deliveryFailure);
    logged := klaxon.errors;
  }
}
