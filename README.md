# Hugging Face integration: configuration screen

A Dafny model of the configuration screen of a Contentful app that connects
to the Hugging Face inference API (`src/locations/ConfigScreen.tsx`). The
screen holds one record, `AppInstallationParameters`, which has three
optional strings: the API key, the text model id and the image model id.
The screen:

- starts the record at its defaults: an empty key, `meta-llama/Llama-3.2-3B-Instruct`
  and `black-forest-labs/FLUX.1-dev`;
- asks the host for the previously saved parameters. A saved record replaces
  the whole current record. Then the screen tells the host it is ready;
- replaces one field verbatim on every input change event (object spread);
- on the host's commit request (`onConfigure`), refuses (`false`) unless all
  three fields are truthy. Otherwise it asks the host for its current state
  and returns `{ parameters, targetState }`.

Files:

- `wrappers.dfy`: module `Wrappers`, the `Option` type. `None` is JavaScript's `undefined`.
- `parameter_store.dfy`: module `ParameterStore`. It holds the record (`Params`),
  its defaults, field access (`Get`) and the spread update (`Put`). It also has
  JavaScript truthiness of a `string | undefined` (`Truthy`), the commit-time
  completeness test (`IsComplete`), and sequences of change events
  (`ApplyEdits`, with `LastWrite` as the reference for "the last value written
  to a field").
- `lifecycle.dfy`: module `Lifecycle`. It holds the commit result and the commit
  handler (`Configure`), and the `Screen` class: the component's mutable record,
  its Loading/Ready phase, and a ghost trace of the `getParameters`, `setReady`
  and `getCurrentState` calls the screen makes into the host. Five client methods play through whole scenarios on a `Screen`.

The host SDK is an input and an output, not code in the model.
`getParameters` resolving is the call `Screen.Load(saved)`.
`getCurrentState` resolving is the argument of `Screen.Commit`.
`getParameters`, `setReady` and `getCurrentState` are recorded, in order, in
the ghost trace `Screen.calls`. The registration of the commit handler
(`sdk.app.onConfigure`) is not traced. A `SetReady` entry carries the record the
screen held at the moment of the signal. This is how the model states that the
signal comes after the loaded record has been applied.

The commit handler is registered from an effect that depends on the handler
itself (`src/locations/ConfigScreen.tsx:47-49`). The handler is rebuilt
whenever the record changes, so `sdk.app.onConfigure` is called again after
every change. In the model a commit always reads the record as it is at that
moment.

## Model

| member | source | states |
|---|---|---|
| `ParameterStore.Put` | src/locations/ConfigScreen.tsx:61-68 | the changed field holds exactly the new value; the other two fields are unchanged |
| `ParameterStore.PutOverwrite` | src/locations/ConfigScreen.tsx:64-67 | writing the same field twice is the same as writing only the last value |
| `ParameterStore.PutCommute` | src/locations/ConfigScreen.tsx:64-67 | writes to two different fields give the same record in either order |
| `ParameterStore.IsComplete` | src/locations/ConfigScreen.tsx:31-35 | the record is complete exactly when every key holds a present, non-empty string |
| `ParameterStore.DefaultsIncomplete` | src/locations/ConfigScreen.tsx:22-35 | the default record is incomplete, and the API key is the only falsy field in it |
| `ParameterStore.ApplyEditsAppend` | src/locations/ConfigScreen.tsx:61-68 | applying two batches of change events in turn equals applying their concatenation |
| `ParameterStore.LastWriteWins` | src/locations/ConfigScreen.tsx:61-68 | after any sequence of change events, each field holds the last value written to it, or its earlier value if no event wrote it |
| `ParameterStore.ApplyEditsOrderIndependent` | src/locations/ConfigScreen.tsx:61-68 | two event sequences that write the same last value to every field leave the same record |
| `ParameterStore.EditsCommute` | src/locations/ConfigScreen.tsx:61-68 | two adjacent change events on different fields can be swapped anywhere in a sequence without changing the outcome |
| `Lifecycle.Configure` | src/locations/ConfigScreen.tsx:29-44 | refusal exactly when some field is absent or empty; on acceptance the record and the host state are passed through unchanged |
| `Lifecycle.SingleMissingFieldRefused` | src/locations/ConfigScreen.tsx:31-37 | making any one field absent or empty forces refusal, whatever the other fields hold |
| `Lifecycle.AcceptedIffAllNonEmpty` | src/locations/ConfigScreen.tsx:31-37 | a commit accepts if and only if all three fields are present with non-empty values |
| `Lifecycle.RefusalIgnoresState` | src/locations/ConfigScreen.tsx:37-39 | a refusal does not depend on the host's state |
| `Lifecycle.Screen.constructor` | src/locations/ConfigScreen.tsx:22-26 | the screen starts Loading, holding the default record, and its trace of `getParameters`/`setReady`/`getCurrentState` calls holds only the request for the saved parameters |
| `Lifecycle.Screen.Load` | src/locations/ConfigScreen.tsx:51-59 | a saved record replaces the whole record, nothing saved leaves it unchanged; then the single ready signal is sent, seeing the updated record, and the phase becomes Ready |
| `Lifecycle.Screen.SetField` | src/locations/ConfigScreen.tsx:61-68 | the record becomes the spread update of one field with the input's value; phase and host calls unchanged |
| `Lifecycle.Screen.Commit` | src/locations/ConfigScreen.tsx:29-45 | returns the commit handler's result for the current record; the host's state is requested only when the record is complete; the record is unchanged |
| `Lifecycle.CommitAfterMountRefused` | src/locations/ConfigScreen.tsx:22-37 | a commit straight after mounting is refused |
| `Lifecycle.LoadSavedRecord` | src/locations/ConfigScreen.tsx:53-57 | after loading a saved record the screen holds exactly that record, and the host saw `getParameters` then `setReady`, with the record already applied |
| `Lifecycle.EditDuringLoadingLost` | src/locations/ConfigScreen.tsx:53-55 | an edit made while Loading is overwritten by the whole saved record; in particular a field absent from it ends up absent |
| `Lifecycle.SetKeyThenCommit` | src/locations/ConfigScreen.tsx:22-44 | with nothing saved, setting a non-empty API key and committing returns that key with the default model ids and the state given at commit time |
| `Lifecycle.TwoCommits` | src/locations/ConfigScreen.tsx:39-44 | two commits of the same complete record each carry the state reported at that commit |

## Left out

- Rendering (`Form`, `TextInput`, `Note`, `Heading`, `emotion` styles) and the `|| ''`
  coalescing of the displayed input values: user interface only, no state logic.
- React hook mechanics: `useState` update scheduling, `useCallback` dependency lists, and the
  re-registration of the commit handler after every change. A commit is modelled as reading
  the current record.
- The asynchronous host SDK (`useSDK`, `getParameters`, `getCurrentState`, `setReady`,
  `onConfigure`). Their results are method arguments. The `getParameters`, `setReady` and
  `getCurrentState` calls are kept in a ghost trace; the `onConfigure` registrations (at mount,
  before `getParameters`, and again after every change) are left out with the hook mechanics.
  Errors thrown by these calls are not caught by the screen and are not modelled.
- Lifecycle.Screen.Load: requires the Loading phase. The loading effect depends only on the
  SDK handle, so it runs once, at mount.
- Lifecycle.Screen.Load: treats the loaded record as already applied when the ready signal is
  sent. In the component, `setParameters` only schedules the update, so at `setReady()` the
  rendered record and the registered commit handler still hold the record from before the
  load; they catch up after the next render re-registers the handler.
- Values of the wrong type in a saved record from the host (for example a number where a
  string belongs): the record is typed as three optional strings.
- Any format check on the API key or the model ids: the screen does none.
