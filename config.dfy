/** The controller allow-list gate of the controller manager.
    A `Config` carries the manager's start-up settings; two read-only
    predicates decide, from its `controllers` allow-list, which controllers
    the bootstrap process should start. An empty allow-list enables every
    controller; otherwise a controller is enabled exactly when its name is
    listed verbatim. */
module ControllerConfig {

  /** The manager's configuration. Only `controllers` is read by the gate;
      the other fields are carried for the bootstrap process. */
  datatype Config = Config(
    enableLeaderElection: bool,
    workers: int,
    kubeconfig: string,
    masterURL: string,
    controllers: seq<string>)

  /** The names of the three well-known controllers. Their literal values
      are defined elsewhere, so the gate takes them as an opaque record. */
  datatype KnownControllers = KnownControllers(
    modelServing: string,
    modelBooster: string,
    autoscaler: string)

  /** True when `name` equals, character for character, some entry of the
      allow-list. */
  predicate Listed(cc: Config, name: string)
  {
    exists i :: 0 <= i < |cc.controllers| && cc.controllers[i] == name
  }

  /** Whether the controller called `name` should be started: always when
      no allow-list is given, otherwise only when it is listed. */
  function ShouldEnableController(cc: Config, name: string): (r: bool)
    ensures |cc.controllers| == 0 ==> r
    ensures |cc.controllers| > 0 ==> (r <==> Listed(cc, name))
  {
    |cc.controllers| == 0 || name in cc.controllers
  }

  /** The gate as the manager runs it: the empty-list shortcut, then a
      front-to-back scan that stops at the first entry equal to `name`. */
  method ScanShouldEnableController(cc: Config, name: string) returns (enabled: bool)
    ensures enabled == ShouldEnableController(cc, name)
    ensures enabled <==> |cc.controllers| == 0 || Listed(cc, name)
  {
    if |cc.controllers| == 0 {
      return true;
    }
    var i := 0;
    while i < |cc.controllers|
      invariant 0 <= i <= |cc.controllers|
      invariant forall j :: 0 <= j < i ==> cc.controllers[j] != name
    {
      if cc.controllers[i] == name {
        return true;
      }
      i := i + 1;
    }
    return false;
  }

  /** Whether at least one of the three well-known controllers should be
      started. The leading empty-list test is written out as the manager
      has it; the contract shows that it adds nothing to the three checks. */
  function ShouldEnableAnyController(cc: Config, known: KnownControllers): (r: bool)
    ensures |cc.controllers| == 0 ==> r
    ensures r <==> (ShouldEnableController(cc, known.modelServing)
                 || ShouldEnableController(cc, known.modelBooster)
                 || ShouldEnableController(cc, known.autoscaler))
  {
    |cc.controllers| == 0
    || ShouldEnableController(cc, known.modelServing)
    || ShouldEnableController(cc, known.modelBooster)
    || ShouldEnableController(cc, known.autoscaler)
  }

  // ---------------------------------------------------------------------
  // Properties of the gate
  // ---------------------------------------------------------------------

  /** With no allow-list every name is enabled, the empty name included. */
  lemma EmptyAllowListEnablesAll(cc: Config, name: string)
    requires cc.controllers == []
    ensures ShouldEnableController(cc, name)
    ensures ShouldEnableController(cc, "")
  {
  }

  /** A name that differs from every entry of a non-empty allow-list, in any
      character including its letter case, is not enabled. */
  lemma UnlistedNameDisabled(cc: Config, name: string)
    requires |cc.controllers| > 0
    requires forall i :: 0 <= i < |cc.controllers| ==> cc.controllers[i] != name
    ensures !ShouldEnableController(cc, name)
  {
  }

  /** Matching is case-sensitive: listing "Foo" does not enable "foo". */
  lemma CaseSensitiveMatch(cc: Config)
    requires cc.controllers == ["Foo"]
    ensures ShouldEnableController(cc, "Foo")
    ensures !ShouldEnableController(cc, "foo")
  {
  }

  /** Only the allow-list decides: leader election, workers, kubeconfig and
      master URL never change either predicate. */
  lemma OnlyAllowListMatters(c1: Config, c2: Config, name: string, known: KnownControllers)
    requires c1.controllers == c2.controllers
    ensures ShouldEnableController(c1, name) == ShouldEnableController(c2, name)
    ensures ShouldEnableAnyController(c1, known) == ShouldEnableAnyController(c2, known)
  {
  }

  /** Order and repetition in the allow-list are irrelevant: two lists with
      the same set of entries enable the same controllers. */
  lemma OnlyEntrySetMatters(c1: Config, c2: Config, name: string)
    requires (set n | n in c1.controllers) == (set n | n in c2.controllers)
    ensures ShouldEnableController(c1, name) == ShouldEnableController(c2, name)
  {
    var s1, s2 := set n | n in c1.controllers, set n | n in c2.controllers;
    if |c1.controllers| > 0 {
      assert c1.controllers[0] in s1;
    }
    if |c2.controllers| > 0 {
      assert c2.controllers[0] in s2;
    }
    assert name in c1.controllers <==> name in s1;
    assert name in c2.controllers <==> name in s2;
  }

  /** A non-empty allow-list that names none of the three well-known
      controllers enables none of them. */
  lemma NoKnownControllerListed(cc: Config, known: KnownControllers)
    requires |cc.controllers| > 0
    requires known.modelServing !in cc.controllers
    requires known.modelBooster !in cc.controllers
    requires known.autoscaler !in cc.controllers
    ensures !ShouldEnableAnyController(cc, known)
  {
  }

  /** "Any controller" holds exactly when the allow-list is empty or lists
      one of the three well-known names. */
  lemma AnyControllerIffKnownListed(cc: Config, known: KnownControllers)
    ensures ShouldEnableAnyController(cc, known)
        <==> (|cc.controllers| == 0
              || Listed(cc, known.modelServing)
              || Listed(cc, known.modelBooster)
              || Listed(cc, known.autoscaler))
  {
  }

  /** Allow-list containing only the model-booster controller, with three
      distinct well-known names: model serving is off, model booster is on,
      and so is "any controller". */
  lemma BoosterOnlyScenario(cc: Config, known: KnownControllers)
    requires cc.controllers == [known.modelBooster]
    requires known.modelServing != known.modelBooster
    ensures !ShouldEnableController(cc, known.modelServing)
    ensures ShouldEnableController(cc, known.modelBooster)
    ensures ShouldEnableAnyController(cc, known)
  {
  }
}
