# Controller allow-list gate

This project models the controller allow-list gate of the controller manager
(`pkg/controller/config.go`). The manager's `Config` holds its start-up
settings: leader election, worker count, kubeconfig path, master URL and the
`Controllers` allow-list. Two read-only predicates decide which controllers the
bootstrap process starts:

- `shouldEnableController(name)`: an empty allow-list enables every
  controller. Otherwise a controller is enabled exactly when its name equals
  one of the list's entries, compared as exact strings. The source does this
  with a front-to-back scan that returns at the first match.
- `shouldEnableAnyController()`: true when the allow-list is empty, or when
  any of the three well-known controllers (model serving, model booster,
  autoscaler) is enabled.

Everything is in `config.dfy`, module `ControllerConfig`. `Config` is a
datatype. The gate is the pure function `ShouldEnableController`. The method
`ScanShouldEnableController` follows the source's loop and early return, and
is proved to compute that function. The names of the three well-known
controllers are defined in a file that is not part of this model. The model
therefore passes them in as a `KnownControllers` record and assumes nothing
about their literal values.

## Model

| member | source | states |
|---|---|---|
| `ControllerConfig.ShouldEnableController` | pkg/controller/config.go:28-41 | An empty allow-list enables the name. A non-empty list enables it exactly when some entry equals it. |
| `ControllerConfig.ScanShouldEnableController` | pkg/controller/config.go:28-41 | The scan with early return gives the same answer as the gate: true iff the list is empty or some entry equals the name. |
| `ControllerConfig.ShouldEnableAnyController` | pkg/controller/config.go:44-49 | True whenever the allow-list is empty. Equal to enabling model serving, model booster or autoscaler, so the explicit empty-list disjunct is redundant. |
| `ControllerConfig.EmptyAllowListEnablesAll` | pkg/controller/config.go:30-32 | With an empty allow-list every name is enabled, including the empty string. |
| `ControllerConfig.UnlistedNameDisabled` | pkg/controller/config.go:35-40 | With a non-empty list, a name that differs from every entry is not enabled. |
| `ControllerConfig.CaseSensitiveMatch` | pkg/controller/config.go:36 | Matching is case-sensitive: the list `["Foo"]` enables "Foo" but not "foo". |
| `ControllerConfig.OnlyAllowListMatters` | pkg/controller/config.go:19-49 | Two configurations with the same allow-list agree on both predicates, whatever their leader-election, worker, kubeconfig and master-URL fields. |
| `ControllerConfig.OnlyEntrySetMatters` | pkg/controller/config.go:30-39 | Two allow-lists with the same set of entries enable the same names: order and duplicates do not matter. |
| `ControllerConfig.NoKnownControllerListed` | pkg/controller/config.go:45-48 | A non-empty list that names none of the three well-known controllers makes the "any controller" predicate false. |
| `ControllerConfig.AnyControllerIffKnownListed` | pkg/controller/config.go:44-49 | The "any controller" predicate holds exactly when the list is empty or lists one of the three well-known names. |
| `ControllerConfig.BoosterOnlyScenario` | pkg/controller/config.go:28-49 | With only the model-booster name listed and distinct well-known names, model serving is off, model booster is on, and the "any controller" predicate is true. |

## Left out

- The literal values of the model-serving, model-booster and autoscaler controller names: they are defined in a file that is not part of this model, so they are parameters.
- What `EnableLeaderElection`, `Workers`, `Kubeconfig` and `MasterURL` do: they are consumed by the bootstrap process (leader election, worker pools, cluster connection), which is I/O and concurrency. `Workers` is an unbounded integer here, since the gate never reads it.
- Building a `Config` from flags or the environment, and constructing and running the controllers: this plumbing is outside the gate.
- Concurrency: both predicates take the configuration by value and change nothing, so as pure functions they are deterministic by construction.
