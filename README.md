# Scheem evaluator in Dafny

Scheem is a tiny Scheme-like language. A PEG parser turns program text into
nested JavaScript arrays of numbers and symbol strings, and the recursive
function `evalScheem(expr, env)` evaluates such a tree against `env`, a flat
JavaScript object of bindings that `define` and `set!` update in place. The
repository holds two versions of that evaluator, and this project models both:

- `javascripts/scheem.js`, the newer one: a `nil` token, a `checkNumber`
  guard that makes `+` and `*` throw `'Invalid number'`, an `'Invalid symbol'`
  check in `define`, and `car`/`cdr` that throw on an empty list;
- `scheem.js` at the root, the older one: no `nil`, arithmetic that coerces
  its operands instead of checking them, a `/` and `%` that evaluate and test
  the divisor before the dividend, a `define` that takes any target, a `car`
  that turns an empty or falsy head into `null` and a `cdr` that returns `[]`
  for an empty list.

Both share the form table (`+ - * / % define set! begin quote cons car cdr
= <> < > <= >= if`), the arity errors, the `'error'` token, and two quirks
modelled exactly as written: `cons`, `car` and `cdr` call `evalScheem` on their
operands WITHOUT the environment, so any variable read or write inside them is a
JavaScript TypeError; and in the newer file the binary `-`, `/` and `%` apply
`checkNumber` to the operand expressions, not to their values, so only number
literals pass.

The model is layered the same way for each version:

- `values.dfy` (module `ScheemValues`): the value domain (`Value` covers both
  programs and data: numbers, symbol strings, arrays, `null`, `undefined`), the
  three ways an evaluation can fail (`Throw(message)` for the evaluator's own
  `throw`, `HostTypeError` for a JavaScript TypeError, `Unmodelled` where
  JavaScript would continue with a coerced or inexact value the model does not
  follow), the environment as a `map<string, Value>` held by a class
  `Environment` whose `vars` field is updated in place, the form table, the
  JavaScript operators on values (ToNumber of numbers and `null`, truncated
  remainder, strict equality, property-key conversion with ToString), and the
  frame predicate `Grows`.
- `scheem.dfy` (module `Scheem`) and `legacy_scheem.dfy` (module
  `LegacyScheem`): `Eval(e, s, hasEnv)` is the meaning of `evalScheem` as a
  function of the expression and the bindings, returning the result and the
  bindings it leaves; `hasEnv` is false for the environment-less calls made by
  `cons`, `car` and `cdr`. `EvalScheem(expr, env)` is the evaluator itself, one
  method per `case` of the switch, with `+`, `*` and `begin` as loops, and
  `define`/`set!` assigning into `env.vars`; each method is proved to return
  exactly `Eval`'s result and to leave `env` holding exactly `Eval`'s new
  bindings (a `null` environment stands for the missing argument).
- `scheem_frame.dfy`, `legacy_frame.dfy`: an evaluation never removes a
  property of the environment object, writes only names targeted by some `define` or `set!` inside the
  expression, and writes nothing without an environment.
- `scheem_properties.dfy`, `legacy_properties.dfy`: what each form promises,
  against reference definitions (left-to-right evaluation of operands `EvalAll`,
  `Sum`, `Product`, the integer orders `Holds`).
- `scheem_examples.dfy`: programs from `web/tests.js`, and programs on which the
  two versions disagree.

The source's own checks and messages are kept verbatim, including
`'First argument must be an non-empty list'`. The newer `define`'s test
`+tmp === tmp` compares a number with a string and so never holds; the model
keeps it as written, so a numeric-looking name such as `"5"` is accepted as a
symbol (`ScheemExamples.DefineNumericName`).

"Never removes a property" is about keys only: `set!` may store undefined in a
bound name (`(set! x y)` with y unbound), after which the key is still present
but, by `Bound`, the name counts as unbound again and a later `set!` on it throws
'Symbol not defined'.

## Model

| member | source | states |
|---|---|---|
| `ScheemValues.FormNameRoundTrip` | javascripts/scheem.js:53-173 | every form is selected by exactly its own `case` label: the label table and the switch are inverse |
| `ScheemValues.FormOf` | scheem.js:39-152 | a list head selects a form only when it is that form's label string; any other head (or a non-string) selects none |
| `ScheemValues.Lookup` | javascripts/scheem.js:46 | `env[k]`: a present property gives its value, an absent one undefined |
| `ScheemValues.Bound` | javascripts/scheem.js:97-104 | `typeof env[k] !== 'undefined'`: a name is bound exactly when reading it does not give undefined |
| `ScheemValues.IsArray` | javascripts/scheem.js:23-25 | only arrays pass `isArray`, and an array is never falsy |
| `ScheemValues.Falsy` | scheem.js:109 | `tmp[0] \|\| null` replaces a falsy head: a number is falsy exactly when it is loosely zero, and null and undefined always are |
| `ScheemValues.NumberOf` | javascripts/scheem.js:150 | JS number coercion as followed by the model: a number is itself, null is 0, a string, an array or undefined is not followed |
| `ScheemValues.Negate` | javascripts/scheem.js:65 | unary minus is defined on numbers only, and is subtraction from 0 |
| `ScheemValues.Subtract` | javascripts/scheem.js:68 | `a - b` is defined exactly when both operands coerce, and adding the coerced b back gives the coerced a |
| `ScheemValues.Quotient` | javascripts/scheem.js:84 | a modelled quotient times the divisor is the dividend |
| `ScheemValues.TruncRem` | javascripts/scheem.js:91 | the JS remainder is smaller in magnitude than the divisor and is zero or has the dividend's sign |
| `ScheemValues.TruncRemIsRemainder` | javascripts/scheem.js:91 | JS `%` on integers: dividend = divisor * truncated quotient + remainder, the remainder is smaller than the divisor and has the dividend's sign |
| `ScheemValues.Remainder` | javascripts/scheem.js:91 | `a % b` on values is defined exactly when both coerce and the divisor is nonzero, and then is smaller than the divisor and signed like the dividend |
| `ScheemValues.LooselyZero` | javascripts/scheem.js:83 | the zero test `tmp2 == 0` holds exactly for the number 0, and is left open only for strings and arrays |
| `ScheemValues.StrictEquals` | javascripts/scheem.js:140-141 | `===` gives a truth atom that is "#t" exactly for equal values, on all operands but two arrays |
| `ScheemValues.Relate` | javascripts/scheem.js:138-166 | every comparison gives a truth atom; `<>` is `=` negated; the four orders are defined exactly when both operands coerce, with `>` the converse of `<` and `<=`, `>=` the negations of `>` and `<` |
| `ScheemValues.PropertyKey` | scheem.js:75-77 | the property name `env[x]` uses: a string is its own name, a number a non-empty decimal numeral starting with '-' exactly when it is negative |
| `ScheemValues.NatToDecimal` | scheem.js:75-77 | the decimal numeral of a natural number is a non-empty string of digits |
| `ScheemValues.IntToDecimal` | scheem.js:75-77 | `String(n)` for an integer: non-empty, starting with '-' exactly when n is negative, and the digits after the sign read back as the magnitude of n |
| `ScheemValues.JoinFrom` | scheem.js:75-77 | `join(',')` of the elements from a given index: empty when none remain, a ',' before every element but the first, and a one-element array whose element is not null or undefined joins to that element's key (null and undefined give "") |
| `ScheemValues.DecimalRoundTrip` | scheem.js:75-77 | reading back the decimal numeral of a number gives the number |
| `ScheemValues.NumberKeysDiffer` | scheem.js:73-78 | two different numeric `define` targets name two different properties |
| `Scheem.Eval` | javascripts/scheem.js:32-174 | `evalScheem` never removes a property of the environment object, and a call without an environment changes none |
| `Scheem.EvalForm` | javascripts/scheem.js:53-173 | each `case` of the switch never removes a property of the environment object, and changes none without an environment |
| `Scheem.SumFrom` | javascripts/scheem.js:57-60 | the `+` loop never removes a property of the environment object |
| `Scheem.ProductFrom` | javascripts/scheem.js:73-76 | the `*` loop never removes a property of the environment object |
| `Scheem.BeginFrom` | javascripts/scheem.js:109-111 | the `begin` loop never removes a property of the environment object |
| `Scheem.EvalScheem` | javascripts/scheem.js:32-174 | the in-place evaluator returns Eval's result and leaves the environment object holding Eval's new bindings; without an environment nothing is written |
| `Scheem.EvalPlus` | javascripts/scheem.js:54-61 | the `+` loop computes the `+` case of Eval, result and bindings |
| `Scheem.EvalMinus` | javascripts/scheem.js:63-68 | the `-` case computes Eval's `-`, including the literal check after both operands ran |
| `Scheem.EvalTimes` | javascripts/scheem.js:70-77 | the `*` loop computes the `*` case of Eval |
| `Scheem.EvalDivision` | javascripts/scheem.js:79-91 | `/` and `%` compute Eval's case: both operands, then the zero test, then the literal check |
| `Scheem.EvalDefine` | javascripts/scheem.js:93-99 | `define` writes the evaluated operand under the symbol into the environment object, exactly as Eval says |
| `Scheem.EvalSet` | javascripts/scheem.js:101-105 | `set!` overwrites a bound name in the environment object, exactly as Eval says |
| `Scheem.EvalBegin` | javascripts/scheem.js:107-112 | the `begin` loop computes Eval's `begin` |
| `Scheem.EvalCons` | javascripts/scheem.js:118-124 | `cons` evaluates its operands without the environment and builds a new array |
| `Scheem.EvalCar` | javascripts/scheem.js:126-130 | `car` computes Eval's case, throwing on a non-list or empty list |
| `Scheem.EvalCdr` | javascripts/scheem.js:132-136 | `cdr` computes Eval's case, throwing on a non-list or empty list |
| `Scheem.EvalCompare` | javascripts/scheem.js:138-166 | the six comparisons compute Eval's case |
| `Scheem.EvalIf` | javascripts/scheem.js:168-172 | `if` computes Eval's case, evaluating only the chosen branch |
| `ScheemFrame.EvalDispatch` | javascripts/scheem.js:53 | a list whose head is a form's label evaluates as that form |
| `ScheemFrame.EvalFrame` | javascripts/scheem.js:93-105 | an evaluation keeps every existing property of the environment object, changes only names targeted by a `define` or `set!` inside it, and changes nothing without an environment |
| `ScheemFrame.NoTargetsNoChange` | javascripts/scheem.js:32-174 | an expression containing no `define` or `set!` leaves the bindings exactly as they were |
| `ScheemProperties.AtomEvaluation` | javascripts/scheem.js:34-47 | `error` throws 'Error', `nil` is null, a number is itself, any other symbol reads its binding or undefined, and without an environment the read is a TypeError |
| `ScheemProperties.UnknownHeadIsUndefined` | javascripts/scheem.js:53-173 | an empty list or a list with an unknown head is undefined and evaluates nothing |
| `ScheemProperties.QuoteReturnsOperand` | javascripts/scheem.js:114-116 | `quote` returns its single operand unevaluated; other operand counts throw |
| `ScheemProperties.SumFromAddsNumbers` | javascripts/scheem.js:56-60 | the `+` loop from any point equals the running total plus the Sum of the numbers the remaining operands evaluate to, stopping at the first failure or non-number |
| `ScheemProperties.PlusAddsOperands` | javascripts/scheem.js:54-61 | `+` needs an operand, returns the Sum of its operands' values and throws 'Invalid number' at the first non-number, after which nothing more is evaluated |
| `ScheemProperties.ProductFromMultipliesNumbers` | javascripts/scheem.js:72-76 | the `*` loop from any point equals the running product times the Product of the remaining numbers |
| `ScheemProperties.TimesMultipliesOperands` | javascripts/scheem.js:70-77 | `*` needs an operand and returns the Product of its operands' values, with the same 'Invalid number' rule |
| `ScheemProperties.MinusNegatesOrSubtracts` | javascripts/scheem.js:63-68 | `-` takes one or two operands: negation of a number, or the difference of two number literals |
| `ScheemProperties.ArithmeticNeedsLiterals` | javascripts/scheem.js:63-91 | once both operands have evaluated, binary `-` throws 'Invalid number' when an operand expression is not a number literal, even when its value is a number; `/` and `%` do so once the divisor has passed the zero test |
| `ScheemProperties.DivisionByZeroThrows` | javascripts/scheem.js:79-91 | `/` and `%` need two operands and throw 'Division by zero' when the divisor evaluates to 0 |
| `ScheemProperties.DivideLiterals` | javascripts/scheem.js:79-84 | on number literals `/` returns the exact quotient |
| `ScheemProperties.ModuloLiterals` | javascripts/scheem.js:86-91 | on number literals `%` returns the JS remainder: smaller than the divisor, with the dividend's sign |
| `ScheemProperties.DefineBindsName` | javascripts/scheem.js:93-99 | `define` checks arity, a symbol target and that the name is unbound, then binds the name to the operand's value and returns 0; when the operand defines nothing, only that name changes |
| `ScheemProperties.SetRebindsName` | javascripts/scheem.js:101-105 | `set!` checks arity and that the name is bound, then overwrites it and returns the new value; when the operand writes nothing, only that name changes |
| `ScheemProperties.BindingFormsNeedEnvironment` | javascripts/scheem.js:93-105 | without an environment, `define` and `set!` fail with a TypeError and write nothing |
| `ScheemProperties.BeginFromYieldsLast` | javascripts/scheem.js:109-111 | the `begin` loop from any point yields the last value of the remaining operands, or the latest value when none remain |
| `ScheemProperties.BeginYieldsLast` | javascripts/scheem.js:107-112 | `begin` evaluates its operands in order, threading the bindings, and returns the last value or null |
| `ScheemProperties.ListFormsIgnoreEnvironment` | javascripts/scheem.js:118-136 | the outcome of `cons`, `car` and `cdr` does not depend on the environment and never changes it |
| `ScheemProperties.ListOperandCannotReadVariables` | javascripts/scheem.js:126-136 | a variable operand of `car` or `cdr` is a TypeError whatever is bound |
| `ScheemProperties.CarCdrInvertCons` | javascripts/scheem.js:118-136 | `cons` prepends the head to a copy of the list; `car` and `cdr` of it give the head and the original list back |
| `ScheemProperties.CarCdrNeedNonEmptyList` | javascripts/scheem.js:126-136 | `car` and `cdr` take one operand, throw unless it is a non-empty list, and return its head or its rest |
| `ScheemProperties.ConsNeedsList` | javascripts/scheem.js:118-124 | `cons` takes two operands, evaluates the second first and throws unless it is a list, then puts the first operand's value in front; an operand's error passes through |
| `ScheemProperties.ComparisonGivesTruthAtom` | javascripts/scheem.js:138-166 | every comparison takes two operands and returns "#t" or "#f" |
| `ScheemProperties.CompareValues` | javascripts/scheem.js:138-166 | once both operands have evaluated left to right to numbers (or null, read as 0 by the orders), each comparison returns the truth of the integer relation it names, in the bindings the operands left |
| `ScheemProperties.EqualityOnValues` | javascripts/scheem.js:138-146 | `=` and `<>` on the evaluated operands return whether the values are (not) equal, for all operands but two arrays |
| `ScheemProperties.NotEqualNegatesEqual` | javascripts/scheem.js:138-146 | `<>` returns the opposite truth atom of `=` on the same operands |
| `ScheemProperties.IfTakesOneBranch` | javascripts/scheem.js:168-172 | only "#t" selects the then-branch, a missing branch yields "#t"/"#f", and the branch not taken does not affect the outcome |
| `ScheemProperties.IfArity` | javascripts/scheem.js:169 | `if` with fewer than one or more than three operands throws |
| `LegacyScheem.AddTo` | scheem.js:44 | `tmp += +v`: a total is followed exactly when both the running total and the coerced operand are, and is then their Sum |
| `LegacyScheem.MultiplyBy` | scheem.js:57 | `tmp *= v`: followed exactly when both factors are, and then their Product |
| `LegacyScheem.Eval` | scheem.js:21-153 | `evalScheem` never removes a property of the environment object, and a call without an environment changes none |
| `LegacyScheem.EvalForm` | scheem.js:39-152 | each `case` of the switch never removes a property of the environment object, and changes none without an environment |
| `LegacyScheem.SumFrom` | scheem.js:43-45 | the coercing `+` loop never removes a property of the environment object |
| `LegacyScheem.ProductFrom` | scheem.js:56-58 | the coercing `*` loop never removes a property of the environment object |
| `LegacyScheem.BeginFrom` | scheem.js:88-90 | the `begin` loop never removes a property of the environment object |
| `LegacyScheem.EvalScheem` | scheem.js:21-153 | the older in-place evaluator returns its Eval's result and leaves the environment object holding its new bindings |
| `LegacyScheem.EvalPlus` | scheem.js:40-46 | the coercing `+` loop computes the `+` case of Eval |
| `LegacyScheem.EvalMinus` | scheem.js:48-51 | `-` computes Eval's case on operand values |
| `LegacyScheem.EvalTimes` | scheem.js:53-59 | the coercing `*` loop computes the `*` case of Eval |
| `LegacyScheem.EvalDivision` | scheem.js:61-71 | `/` and `%` compute Eval's case, divisor first |
| `LegacyScheem.EvalDefine` | scheem.js:73-78 | `define` writes under the target's property name, exactly as Eval says |
| `LegacyScheem.EvalSet` | scheem.js:80-84 | `set!` overwrites a bound name, exactly as Eval says |
| `LegacyScheem.EvalBegin` | scheem.js:86-91 | the `begin` loop computes Eval's `begin` |
| `LegacyScheem.EvalCons` | scheem.js:97-103 | `cons` computes Eval's case |
| `LegacyScheem.EvalCar` | scheem.js:105-109 | `car` computes Eval's case, null for an empty array or falsy head |
| `LegacyScheem.EvalCdr` | scheem.js:111-115 | `cdr` computes Eval's case, the empty array for an empty array |
| `LegacyScheem.EvalCompare` | scheem.js:117-145 | the comparisons compute Eval's case |
| `LegacyScheem.EvalIf` | scheem.js:147-151 | `if` computes Eval's case |
| `LegacyFrame.EvalDispatch` | scheem.js:39 | a list whose head is a form's label evaluates as that form |
| `LegacyFrame.EvalFrame` | scheem.js:73-84 | an evaluation keeps every property of the environment object, changes only names targeted inside it, and nothing without an environment |
| `LegacyFrame.DivisionFrame` | scheem.js:61-71 | the divisor, then the dividend, stay inside the expression's frame |
| `LegacyFrame.NoTargetsNoChange` | scheem.js:21-153 | an expression without `define` or `set!` leaves the bindings exactly as they were |
| `LegacyProperties.NilIsAName` | scheem.js:21-33 | `nil` reads its binding like any symbol, while `error` still throws |
| `LegacyProperties.SumFromCoerces` | scheem.js:43-45 | the `+` loop from any point evaluates every remaining operand and adds their coerced values to the total |
| `LegacyProperties.PlusCoercesOperands` | scheem.js:40-46 | `+` needs an operand, evaluates all of them even past non-numbers, never throws 'Invalid number' itself, and returns the Sum of the coerced values |
| `LegacyProperties.ProductFromCoerces` | scheem.js:56-58 | the `*` loop from any point multiplies the running product by the coerced values of all remaining operands |
| `LegacyProperties.TimesCoercesOperands` | scheem.js:53-59 | `*` needs an operand and returns the Product of all coerced values |
| `LegacyProperties.MinusOnValues` | scheem.js:48-51 | `-` negates, or subtracts operand values (variables included) |
| `LegacyProperties.DivisorComesFirst` | scheem.js:61-71 | a divisor of 0 throws 'Division by zero' before the dividend is evaluated, whatever the dividend is |
| `LegacyProperties.DivisionArity` | scheem.js:61-71 | `/` and `%` need exactly two operands |
| `LegacyProperties.DivideOnValues` | scheem.js:61-65 | `/` on number values returns the exact quotient, leaving the bindings the dividend left |
| `LegacyProperties.ModuloGivesTruncRem` | scheem.js:67-71 | `%` on number values is the truncated remainder, in the bindings the dividend left |
| `LegacyProperties.ModuloOnValues` | scheem.js:67-71 | `%` on number values is smaller than the divisor and has the dividend's sign |
| `LegacyProperties.DefineBindsAnyTarget` | scheem.js:73-78 | `define` accepts any target, binds its property name unless already bound and returns 0; only that name changes when the operand writes nothing |
| `LegacyProperties.SetRebindsName` | scheem.js:80-84 | `set!` overwrites a bound name and returns the value; only that name changes when the operand writes nothing |
| `LegacyProperties.BeginFromYieldsLast` | scheem.js:88-90 | the `begin` loop from any point yields the last remaining value |
| `LegacyProperties.BeginYieldsLast` | scheem.js:86-91 | `begin` returns its last operand's value, or null without operands |
| `LegacyProperties.QuoteReturnsOperand` | scheem.js:93-95 | `quote` returns its single operand unevaluated |
| `LegacyProperties.ListFormsIgnoreEnvironment` | scheem.js:97-115 | `cons`, `car` and `cdr` do not depend on or change the environment |
| `LegacyProperties.CarCdrAreLenient` | scheem.js:105-115 | `car` and `cdr` throw only for a non-array: an empty array gives null and `[]`, a falsy head gives null |
| `LegacyProperties.CarCdrInvertCons` | scheem.js:97-115 | `car`/`cdr` of a `cons` give the head (null if falsy) and the original list |
| `LegacyProperties.ConsNeedsList` | scheem.js:97-103 | `cons` takes two operands, evaluates the second first and throws 'Second argument must be an array' unless it is one, then puts the first operand's value in front |
| `LegacyProperties.ComparisonGivesTruthAtom` | scheem.js:117-145 | every comparison takes two operands and returns a truth atom |
| `LegacyProperties.ComparisonOnValues` | scheem.js:117-145 | a comparison whose operands both evaluate applies the JS operator to their values, in the bindings the operands left |
| `LegacyProperties.CompareValues` | scheem.js:117-145 | on operands that evaluate to numbers (or null for the orders) each comparison returns the integer relation it names |
| `LegacyProperties.EqualityOnValues` | scheem.js:117-125 | `=` and `<>` return whether the operand values are (not) equal, for all operands but two arrays |
| `LegacyProperties.NotEqualNegatesEqual` | scheem.js:117-125 | `<>` returns the opposite truth atom of `=` on the same operands |
| `LegacyProperties.IfTakesOneBranch` | scheem.js:147-151 | only "#t" selects the then-branch, a missing branch yields "#t"/"#f", and the branch not taken does not affect the outcome |
| `LegacyProperties.IfArity` | scheem.js:148 | `if` with fewer than one or more than three operands throws before evaluating anything |
| `ScheemExamples.Run` | javascripts/scheem.js:19-21 | `eval` on a parsed tree keeps every binding the caller passed in, value included, except names the program defines or sets, and a program without `define` or `set!` leaves them exactly as they were |
| `ScheemExamples.BeginDefineThenRead` | web/tests.js:490-494 | `(begin (define x 5) (+ x 2))` is 7 and leaves x bound to 5 |
| `ScheemExamples.DefineThenSet` | web/tests.js:128-165 | the in-place evaluator adds a binding with `define` and overwrites it with `set!`, leaving the other binding alone |
| `ScheemExamples.CarOfEmptyList` | web/tests.js:81-85 | `car` of the empty list throws in the newer evaluator and is null in the older one |
| `ScheemExamples.DivisionOrder` | scheem.js:61-65 | `(/ error 0)` throws 'Error' in the newer evaluator and 'Division by zero' in the older one |
| `ScheemExamples.MinusOnVariable` | javascripts/scheem.js:63-68 | `(- x 1)` is rejected by the newer evaluator's literal check and computed by the older one |
| `ScheemExamples.DefineNumericName` | web/tests.js:148-152 | `(define "5" 3)` fails only for want of an environment, and binds "5" when given one |

## Left out

- The PEG parser and `parseScheem`, the `eval`/`evalScheemString` wrappers beyond evaluating an already parsed tree (`ScheemExamples.Run`), and the module-export boilerplate: they are I/O and foreign code.
- JavaScript numbers are modelled as integers. Wherever JavaScript would go on with a value the model does not follow (NaN, an inexact quotient, the numeric value of a string or an array, string ordering in `<`, loose `== 0` on a string or an array) the outcome is `Unmodelled`, about which nothing is claimed.
- ScheemValues.Quotient: `/` is modelled only where the quotient is an integer; other quotients are floats.
- ScheemValues.Negate: `-null` is the float -0 and is left unmodelled.
- Negative zero is identified with 0: `(- 0)`, `(* -1 0)`, `(% -5 5)` and the older `(/ 0 -5)` give 0 in the model where JavaScript gives -0, a difference nothing in the language can observe (`===`, `== 0`, the orders and the property-key conversion treat them alike).
- Integers are exact at every magnitude: beyond 2^53 JavaScript rounds sums, differences and products to the nearest double, and beyond about 1.8e308 it overflows to Infinity, while the model keeps the exact integer.
- ScheemValues.StrictEquals: `===` between two arrays compares identity, which values do not record; it is left unmodelled, so `=` and `<>` on two lists make no claim.
- ScheemProperties.EqualityOnValues, LegacyProperties.EqualityOnValues: stated for operands whose values are not both lists, for the reason above.
- ScheemProperties.CompareValues, LegacyProperties.CompareValues: the orders are stated on values that are numbers or null (read as 0), and `=`, `<>` on numbers; string order and undefined (NaN) are not modelled.
- LegacyProperties.PlusCoercesOperands: once one operand coerces to something the model does not follow, the result is `Unmodelled`, but all operands are still evaluated and the bindings they leave are tracked.
- Property names of the environment object are exact only for own properties: inherited `Object.prototype` names (such as `toString`) and `__proto__` are treated like any other absent name.
- Property keys of numbers use plain decimal notation; JavaScript's exponent form for very large numbers is not modelled.
- Every JavaScript TypeError (a property read on the missing environment, or on a null or undefined expression) is the single failure `HostTypeError`; its message is not modelled.
- Stack exhaustion on deeply nested programs is not modelled; the model's recursion is on the structure of the expression.
- The separate `checkNumber` and `isArray` helpers are inlined as the tests `Num?` on operands and `IsArray` (`List?`) on values.
