# safe-mock: the unmocked guard and the call-mismatch message

A Dafny model of two pieces of the safe-mock test-double library.

**The unmocked guard** (`src/valueIfNoReturnValueSet.ts`). A mocked call with no
usable stub returns a proxy whose every use fails loudly with the reason text
(`whyNoMatch.reasonAndAdvice()`). The proxy also keeps a hidden channel for the
stub registrar:

- a `get` of the module-private symbol `_setReturnValue` hands back the captured
  `futureReturnValueSetter`;
- a `get` of `"toString"` hands back a function that yields the reason;
- every other trap throws an `Error` carrying the reason. That covers every other
  `get`, every `set`, `apply`, `construct` and the remaining ten traps.

The model keeps the proxy as data: `Guard(reason, setter)`. A trap invocation is
a `Trap`, and `Handle` maps it to an `Outcome`: `ReturnsSetter`,
`ReturnsToString` or `Throws`. Property keys are a datatype (`PropertyKey`, in module `PropertyKeys`).
The private symbol has its own constructor, so it can equal no other key, not
even another symbol with the same description.

`whenInTests(x)` only captures `x` (`WhenInTests`). Its `return(v)` is the
method `Return`, and `WhenInTestsReturn` is the whole chain. `Return` reads the hidden key
through the guard's `get` trap and calls what comes back. The setter is the
class `RecordingSetter`, whose field `calls` holds every value it has been
called with. When `x` is not a guard, `return` ends in a `TypeError`. For an
ordinary value the hidden key reads as `undefined`, and calling that throws.
For `null` or `undefined` the read itself throws, before any call.

**The verification-mismatch message** (`src/CallsDontMatchError.ts`). This is a
two-line template: the method name, the expected call joined with `", "` inside
`[...]`, and then, after a line break and seven spaces, the other interactions
joined the same way. `Join` models `Array.prototype.join` on strings that are
already rendered. Its own contract gives the length of the result. `Split` on
one character is an independent partner for it. `Join(Split(s, c), [c]) == s`
holds for every `s`. `Split(Join(p, [c]), c) == p` holds when `p` is non-empty
and no part of `p` contains `c`. These two round trips are stated only for
one-character separators, while the source joins with `", "`. `MessageLines`
rests on the smaller facts `JoinAvoids`, `SplitAtFirst` and `SplitAvoiding`.
When neither the method name nor any rendered element contains a line break,
it shows that the message has exactly two lines, and what each line holds. A method name that is a symbol makes the template literal
throw a `TypeError`. `NewCallsDontMatchError` returns this as
`TemplateTypeError`.

The source and its tests disagree. `test/CallsDontMatchError.test.ts` expects
`(...)` grouping, `),(` between tuples, and no "Other interactions" line when
there are none. `src/CallsDontMatchError.ts` always emits the line and joins
with `", "` inside `[...]`. The model follows the source. `EmptyHistoryLineKept`
proves that the line stays.

Files: `keys.dfy` (module `PropertyKeys`), `unmocked_guard.dfy` (module
`UnmockedGuard`), `calls_dont_match_error.dfy` (module `CallsDontMatchError`).

## Model

| member | source | states |
|---|---|---|
| UnmockedGuard.ValueIfNoReturnValueSet | src/valueIfNoReturnValueSet.ts:15-92 | the proxy built from a reason and a setter hands that setter back for the hidden key and a `toString` yielding that reason, and throws that reason when called with any arguments or assigned to under any key, the hidden key included; by OutcomeIgnoresValues the other argument values do not matter |
| UnmockedGuard.Handle | src/valueIfNoReturnValueSet.ts:21-90 | the outcome is the setter exactly when the trap is `get` of the private symbol, and then it is the captured setter; it is the `toString` function exactly when the trap is `get` of `"toString"`, and it yields the reason; every other outcome throws, with the reason as message |
| UnmockedGuard.SameReasonEverywhere | src/valueIfNoReturnValueSet.ts:17-89 | any two traps other than the two escaping `get`s both throw, with the same message, the reason |
| UnmockedGuard.SetAlwaysThrows | src/valueIfNoReturnValueSet.ts:36-39 | `set` of any key, the hidden key included, throws the reason; the assignment never completes |
| UnmockedGuard.OutcomeIgnoresValues | src/valueIfNoReturnValueSet.ts:21-90 | the outcome is unchanged when every value, receiver and argument in the trap is erased: it depends only on the trap and its key |
| UnmockedGuard.RecordingSetter.Invoke | src/valueIfNoReturnValueSet.ts:15 | calling the setter appends exactly its argument to the record of calls |
| UnmockedGuard.WhenInTestsReturn | src/valueIfNoReturnValueSet.ts:6-13 | `whenInTests(x).return(v)`: on a guard it completes normally, and the guard's setter has been called once more, with exactly `v`; nothing else changes. On any other value it throws a `TypeError` |
| UnmockedGuard.Return | src/valueIfNoReturnValueSet.ts:9-11 | the `return` method of the captured object: on a guard, `return(v)` completes normally, and the guard's setter has been called once more, with exactly `v`; nothing else changes. On any other value it throws a `TypeError` |
| CallsDontMatchError.NewCallsDontMatchError | src/CallsDontMatchError.ts:2-5 | the construction fails with a `TypeError` exactly when the method name is a symbol; otherwise the message is the template applied to the name's text |
| CallsDontMatchError.Join | src/CallsDontMatchError.ts:3-4 | joining nothing gives `""`; a non-empty join begins with the first part, and its length is the parts' total length plus one separator per neighbouring pair |
| CallsDontMatchError.MessageText | src/CallsDontMatchError.ts:3-4 | the template itself; it has no contract of its own, and its layout is proved by MessageStartsWithName, MessageEndsWithBracket, EmptyHistoryLineKept and MessageLines |
| CallsDontMatchError.JoinSnoc | src/CallsDontMatchError.ts:3-4 | joining nothing gives `""`, joining one part gives that part, and appending a part to a non-empty sequence appends the separator and the part |
| CallsDontMatchError.JoinConcat | src/CallsDontMatchError.ts:3-4 | joining a concatenation of two non-empty sequences is the two joins with one separator between them |
| CallsDontMatchError.JoinAvoids | src/CallsDontMatchError.ts:3-4 | a character that occurs in no part and not in the separator does not occur in the joined text |
| CallsDontMatchError.SplitJoin | src/CallsDontMatchError.ts:3-4 | splitting the join on a one-character separator gives back the parts, when there is at least one part and no part contains that character |
| CallsDontMatchError.JoinSplit | src/CallsDontMatchError.ts:3-4 | rejoining the pieces of a split with the split character gives back the text, for every text |
| CallsDontMatchError.MessageStartsWithName | src/CallsDontMatchError.ts:3 | the message begins with the method name followed by `" was not called with: ["` |
| CallsDontMatchError.MessageEndsWithBracket | src/CallsDontMatchError.ts:4 | the message is non-empty and its last character is `]` |
| CallsDontMatchError.EmptyHistoryLineKept | src/CallsDontMatchError.ts:4 | with no other interactions the message still ends with a line break, seven spaces and `Other interactions with this mock: []` |
| CallsDontMatchError.MessageLines | src/CallsDontMatchError.ts:3-4 | when neither the name nor any rendered element contains a line break, the message contains exactly one, and its two lines are the expected-call line closed by `]` and the seven-space "Other interactions" line closed by `]` |

## Left out

- The JavaScript `Proxy` and `Reflect` machinery, the proxy's function target and symbol identity. These are modelled as the `Trap` dispatch and the `PropertyKey` datatype.
- The text of `reasonAndAdvice()`. `WhyNoReturnValueMatched` is not part of this model, so the reason is an opaque string. The source calls it afresh on each throw and on each `toString()` call; the model takes one value per guard.
- What the setter does to the mock's stub table. `SafeMock` is not part of this model, so the setter only records the values it receives.
- `MockValue.Plain` stands for any value that is not a guard. Values produced by SafeMock's own proxy are not modelled, because their `get` handler is not part of this model.
- The mock engine, the call ledger, argument equality, `ArgumentInvocation` rendering and `verify`/`calledWith`. Their source is not part of this model.
- Conversion of arbitrary runtime values to text by `join` (`null` and `undefined` become `""`, objects use their `toString`). Elements are taken as already-rendered strings. Numeric property keys are left out because a trap receives them as strings.
- JavaScript `String.prototype.split` in general. `Split` handles one character only, and it is used only to state properties.
- `Error` subclassing, stack traces and the test harness.
- The formats the tests expect but the source does not produce: `(...)` grouping, `),(` separators and dropping an empty "Other interactions" line.
