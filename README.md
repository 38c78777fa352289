# component-state: the ordered collection and its two screens

This project models the logic of a small React demo. `CollectionClass` wraps a private
JavaScript array. Its `collection` setter pushes the value it is given, and its getter
returns the stored array itself. Two example screens copy the collection into UI state:

- The first screen uses `useState` and a `setList` updater `(previous) => [...previous, last]`.
- The second screen uses `useReducer`. Its `reducer` handles the one action type `"add"`.

JavaScript arrays are heap objects, so the model treats them as a class, `Values.JsArray`.
The getter hands out the live array, and both screens seed their state with it, so the
model can state what happens when two names point to the same array. Values are
`Values.Value`: an integer, `NaN` (what `Number.parseInt` returns when it fails),
`undefined` or `null` (the inputs' initial states). Nothing validates the input, so any
of these can be appended.

Files:

- `values.dfy`: values and the array object: `push`, `at`, array creation.
- `collection.dfy`: `CollectionClass` and client methods that state its properties.
- `first_example.dfy`: the updater and `addToList`.
- `second_example.dfy`: the reducer, `dispatch` and `addToState`.

Two behaviours of the program the model keeps:

- The getter returns the stored array itself, not a copy, and the model keeps that alias.
- For any action type other than `"add"`, `reducer` returns `undefined`
  (src/screens/SecondExampleScreen.jsx:13-15), so the state becomes `undefined`, not the old state.

## Model

| member | source | states |
|---|---|---|
| `Values.JsArray.constructor` | src/screens/SecondExampleScreen.jsx:12 | an array literal or spread is a new array holding exactly the given elements |
| `Values.JsArray.Push` | src/CollectionClass.js:7 | `push` appends exactly one element at the end and keeps everything before it |
| `Values.JsArray.At` | src/screens/FirstExampleScreen.jsx:18 | `at(k)` is element `k`, or element `length + k` for a negative `k`, or `undefined` when out of range |
| `Collections.Collection.constructor` | src/CollectionClass.js:3-5 | a new collection stores the constructor arguments in order, duplicates kept, in a new array of its own |
| `Collections.Collection.SetCollection` | src/CollectionClass.js:6-8 | the setter pushes `v` onto the stored array instead of replacing it, and accepts any value |
| `Collections.Collection.GetCollection` | src/CollectionClass.js:9-10 | the getter returns the stored array object itself, not a copy |
| `Collections.AppendOnce` | src/CollectionClass.js:6-7 | one append grows the contents by exactly one, keeps the old contents as a prefix, and puts the value last |
| `Collections.AppendTwice` | src/CollectionClass.js:7 | appending is not idempotent: the same value appended twice appears twice at the end |
| `Collections.ReadIsLive` | src/CollectionClass.js:9-10 | reading changes nothing, and a push made after a read is visible through the array that read returned |
| `Collections.Independent` | src/CollectionClass.js:2-4 | two collections have separate storage: appending to one leaves the other's contents unchanged |
| `FirstExample.Extend` | src/screens/FirstExampleScreen.jsx:18 | the updater's result is one longer than `previous`, has `previous` as a prefix, and ends with the collection's last element |
| `FirstExample.ApplyUpdatesAppends` | src/screens/FirstExampleScreen.jsx:18 | updaters applied in order append their values in that order and never reorder earlier elements |
| `FirstExample.FirstScreen.Mount` | src/screens/FirstExampleScreen.jsx:10-13 | on mount, the list state is the collection's own array holding 1, 2, 3, and the input is `undefined` |
| `FirstExample.FirstScreen.MountWithCopy` | src/screens/FirstExampleScreen.jsx:12 | corrected mount: the list state is a separate array with the same contents as the collection |
| `FirstExample.FirstScreen.ChangeInput` | src/screens/FirstExampleScreen.jsx:29-31 | the input state becomes the parsed value as-is (possibly `NaN`), and the list is untouched |
| `FirstExample.FirstScreen.AddToList` | src/screens/FirstExampleScreen.jsx:15-20 | the collection grows by the unvalidated input. The list becomes a new array: `previous` plus the last element read after the push. If the list was the collection's own array, the input shows twice. Otherwise `previous` is not mutated. The mirror invariant is preserved |
| `FirstExample.FirstSubmitAsWritten` | src/screens/FirstExampleScreen.jsx:12-18 | a submission right after mount, before anything is typed, shows the list `1, 2, 3, undefined, undefined` while the collection is `1, 2, 3, undefined` |
| `FirstExample.TwoSubmitsAsWritten` | src/screens/FirstExampleScreen.jsx:12-18 | submitting without typing, then typing `y` and submitting, shows `1, 2, 3, undefined, undefined, y` |
| `FirstExample.TwoSubmitsWithCopy` | src/screens/FirstExampleScreen.jsx:15-18 | with a copied seed, submitting `x` then `y` shows `1, 2, 3, x, y`, equal to the collection |
| `SecondExample.Reduce` | src/screens/SecondExampleScreen.jsx:9-16 | the reducer returns a state exactly when the type is `"add"`. That state is one longer, has the old state as a prefix, and ends with the payload. Any other type gives `undefined` |
| `SecondExample.ReplayAppends` | src/screens/SecondExampleScreen.jsx:9-12 | any run of `"add"` dispatches never gives `undefined`, and appends the payloads in dispatch order |
| `SecondExample.SecondScreen.Mount` | src/screens/SecondExampleScreen.jsx:19-22 | on mount, the reducer state is the collection's own array holding 1, 2, 3, and the input is `null` |
| `SecondExample.SecondScreen.MountWithCopy` | src/screens/SecondExampleScreen.jsx:21 | corrected mount: the state is a separate array with the same contents as the collection |
| `SecondExample.SecondScreen.ChangeInput` | src/screens/SecondExampleScreen.jsx:37-39 | the input state becomes the parsed value as-is (possibly `NaN`), and the state is untouched |
| `SecondExample.SecondScreen.Dispatch` | src/screens/SecondExampleScreen.jsx:9-16 | the new state is a new array equal to what the reducer returns, without writing to the old array. An unknown type gives `undefined`. `"add"` on an `undefined` state throws |
| `SecondExample.SecondScreen.AddToState` | src/screens/SecondExampleScreen.jsx:24-29 | the collection grows by the unvalidated input, and the dispatched payload equals that input. The state becomes the old state plus the input, or plus the input twice while the state is still the collection's array. The mirror invariant is preserved |
| `SecondExample.FirstSubmitAsWritten` | src/screens/SecondExampleScreen.jsx:21-27 | a submission right after mount, before anything is typed, gives the state `1, 2, 3, null, null` while the collection is `1, 2, 3, null` |
| `SecondExample.TwoSubmitsWithCopy` | src/screens/SecondExampleScreen.jsx:24-27 | with a copied seed, submitting `x` then `y` gives the state `1, 2, 3, x, y`, equal to the collection |
| `SecondExample.UnknownActionAfterMount` | src/screens/SecondExampleScreen.jsx:13-15 | dispatching any type other than `"add"` makes the state `undefined`, not the previous state |

## Left out

- Rendering, markup and styling of all screens and components, routing, and the build configuration: they hold no logic.
- React's hook machinery is not modelled: when re-renders happen, the component body running again on each render (which builds a new `instance`), StrictMode double invocation, and when an updater or reducer actually runs. Each submission is treated as one atomic step on one persistent `instance`.
- `FirstExample.FirstScreen.AddToList`, `SecondExample.SecondScreen.AddToState`: after typing, the aliased case gives the typed value twice only because the model keeps one persistent `instance`. In the program, typing calls `setInput` and re-renders, and that render builds a new collection, so the state no longer aliases the array that receives the push. The doubling in the program is therefore only on a submission made before anything is typed, with the initial `undefined` or `null` input. The displayed list after later submissions is the same either way, because each one appends only the collection's last element, which is the input.
- `SecondExample.SecondScreen.Dispatch`: the TypeError from spreading an `undefined` state is given as a `threw` result, with the state left as it was. Where React would surface that error is not modelled.
- `Number.parseInt`, `event.preventDefault` and `event.target.reset` are DOM and library calls. The parsed input is a parameter of `ChangeInput`, and the other two calls have no effect on the modelled state.
- `Values.JsArray.Push`: the length that `push` returns is not modelled, because the setter discards it.
- JavaScript cannot reach `#list` from outside the class. Dafny cannot make `list` private, so the model keeps that encapsulation only by having no client write to it directly.

## Findings

| source | as written | input that shows it | evidently intended | confidence | as-written member | corrected member |
|---|---|---|---|---|---|---|
| src/screens/FirstExampleScreen.jsx:12 | `useState(instance.collection)` seeds the list with the collection's own array, so the push at line 17 already shows in `previous` before line 18 appends the last element again | mount, then submit without typing: the list shows 1, 2, 3, undefined, undefined and the collection holds 1, 2, 3, undefined | the list shows the collection's contents, so one submission adds one element: 1, 2, 3, undefined | medium, not executed | `FirstExample.FirstSubmitAsWritten` | `FirstExample.TwoSubmitsWithCopy` |
| src/screens/SecondExampleScreen.jsx:21 | `useReducer(reducer, instance.collection)` seeds the state with the collection's own array, so the push at line 26 already shows in the state the reducer spreads for the dispatch at line 27 | mount, then submit without typing: the state shows 1, 2, 3, null, null and the collection holds 1, 2, 3, null | the state shows the collection's contents: 1, 2, 3, null | medium, not executed | `SecondExample.FirstSubmitAsWritten` | `SecondExample.TwoSubmitsWithCopy` |

In both corrected versions the state is seeded with a copy, `[...instance.collection]`.
This is `MountWithCopy` in each screen. Its invariant `Mirrors()` (the state is a separate
array with the collection's contents) holds from mount and is kept by every submission.
