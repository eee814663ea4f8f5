# A verified model of the clause compiler

The model covers the small contract language in `src/lib/lang.py` and the
`ProgramBuilder` that compiles it to a bitcoin script.

A contract is a clause:
- signature checks, preimage checks, template checks (OP_CHECKTEMPLATEVERIFY) and timelocks;
- bare variables;
- combined with `+` (either) and `*` (both).

`ProgramBuilder.compile` does the following:
1. It rewrites the clause with the distributive law (`normalize`, run a fixed number of passes).
2. It splits the result into cases, each a list of leaves that must all hold (`flatten`).
3. It compiles each leaf to a script fragment (`_compile`). Variables that are not bound go into a per-case witness template.
4. It lays the cases out in one of three ways:
   - one case: its fragments straight-line;
   - two cases: an OP_IF/OP_ELSE;
   - three or more: a selector that the spender supplies, range-checked and then counted down through one OP_NOTIF branch per case.

Verifying the model showed three defects in the source (see "## Findings").
The parts they touch take a `Variant` parameter:
- `AsWritten` follows `lang.py` line by line;
- `Corrected` applies the fixes proposed below.

Every property that holds of the source is proved for both variants. The
few that hold only after the fixes are stated for `Corrected` alone, and
their rows say so.

The Dafny modules follow that structure:

- `Wrappers` — `Option` and `Result`; the exceptions the source raises are `Result` failures.
- `Names` — how `Variable.sub_variable` builds names from a counter, and why these names never collide.
- `Scripts` — an abstract script: a sequence of pushes, opcodes and nested scripts.
- `Clauses` — the `Variable` class (its counter and value change in place), the `Clause` datatype, and `+`/`*`. Also the boolean meaning of a clause and the disjunctive normal form.
- `Normalization` — `normalize`: its meaning is preserved, no pass raises a well-founded weight, and in the corrected form a pass lowers it until the clause is in normal form.
- `Flatten` — `flatten` and `compile_cnf`: flatten succeeds exactly on normal-form clauses of handled leaves, and the cases hold exactly when the clause does. With enough passes the corrected `compile_cnf` succeeds.
- `Compiler` — `WitnessTemplate` as a class, and `_compile` and `compile` as methods. Each method is proved against the functions `LeafScript`, `CaseScript` and `Program`, and against the templates that these functions describe.
- `Dispatch` — an interpreter for the opcodes of the generic layout. It proves which selectors each layout accepts, and which case's branch each selector enters.
- `Programs` — what the emitted scripts contain:
  - the opcodes of each leaf;
  - each variable slot either pushed or left to the spender;
  - the first failing leaf deciding the error;
  - the flow control of each layout.

## Model

| member | source | states |
|---|---|---|
| Names.NatToString | src/lib/lang.py:168 | `str` of a counter is a non-empty string of decimal digits with no leading zero |
| Names.DecimalValueOfNatToString | src/lib/lang.py:168 | reading the digits back gives the counter, so the rendering loses nothing |
| Names.NatToStringInjective | src/lib/lang.py:168 | two counters render alike exactly when they are equal |
| Names.SubVariableName | src/lib/lang.py:168 | the length of a sub-variable name is the parent name's, the digits', the purpose's and two underscores |
| Names.SubVariableNamesInjective | src/lib/lang.py:166-168 | two sub-variables of one variable get the same name exactly when their counters and purposes agree |
| Clauses.Variable.constructor | src/lib/lang.py:161-164 | a new variable has the given name and value, and its counter is -1 |
| Clauses.Variable.SubVariable | src/lib/lang.py:166-168 | advances the counter by one and returns a fresh variable named parent_counter_purpose; that name differs from every earlier sub-variable's |
| Clauses.Variable.Assign | src/lib/lang.py:170-171 | binds the value; nothing else about the variable changes |
| Clauses.NewSignatureCheck | src/lib/lang.py:96-98 | the signature variable is a fresh, unbound sub-variable of the key, with purpose "signature" |
| Clauses.NewPreImageCheck | src/lib/lang.py:111-113 | the preimage variable is a fresh, unbound sub-variable of the hash, with purpose "preimage" |
| Clauses.Plus | src/lib/lang.py:47-48 | `+` builds an Or node from every clause kind, and fails exactly on a Variable, which defines no operators |
| Clauses.Times | src/lib/lang.py:50-51 | `*` builds an And node from every clause kind, and fails exactly on a Variable |
| Clauses.OperatorsMeaning | src/lib/lang.py:62-67 | `+` means either holds and `*` means both hold |
| Normalization.Normalize | src/lib/lang.py:255-314 | either variant: handled leaves come back unchanged; Satisfied and Unsatisfiable have no handler; no new leaf appears; only the two expected errors arise |
| Normalization.NormalizeAnd | src/lib/lang.py:260-288 | either variant: a distributivity step introduces no leaf, and fails only by `*` on a Variable or by a missing handler. `AsWritten` normalises only the left child of an And of Ands (lines 277-278); `Corrected` normalises both |
| Normalization.FourProducts | src/lib/lang.py:269 | defined as `a0*b0 + a0*b1 + a1*b0 + a1*b1`, the four products in the order the source adds them, left-nested |
| Normalization.FourProductsLeaves | src/lib/lang.py:264-269 | the four products use only leaves of `(a0+a1)*(b0+b1)` |
| Normalization.NormalizePasses | src/lib/lang.py:203-207 | either variant: repeated passes introduce no leaf |
| Normalization.NormalizePreservesMeaning | src/lib/lang.py:255-314 | either variant, so also normalize as written: a pass keeps the boolean meaning of the clause for every assignment to its leaves |
| Normalization.PassesPreserveMeaning | src/lib/lang.py:203-207 | either variant: compile_cnf's passes keep the meaning |
| Normalization.DistributeBothProgress | src/lib/lang.py:264-269 | either variant: the four-product rewrite lowers the weight |
| Normalization.DistributeLeftProgress | src/lib/lang.py:279-281 | either variant: distributing over an Or on the left (here, and at lines 270-272 when the right child is an And) lowers the weight |
| Normalization.DistributeRightProgress | src/lib/lang.py:284-286 | either variant: distributing over an Or on the right (here, and at lines 273-275 when the left child is an And) lowers the weight |
| Normalization.NormalizeProgress | src/lib/lang.py:255-314 | either variant: a pass never raises the weight and keeps Or-free clauses and normal form. Corrected only: outside normal form a pass lowers the weight strictly |
| Normalization.NormalizeTotal | src/lib/lang.py:255-314 | either variant: on clauses whose leaves are checks, normalize raises nothing |
| Normalization.PassesTotal | src/lib/lang.py:203-207 | either variant: neither do any number of passes |
| Normalization.PassesKeepDnf | src/lib/lang.py:204-207 | either variant: passes keep disjunctive normal form |
| Normalization.PassesReachDnf | src/lib/lang.py:204-207 | corrected normalize only: as many passes as the clause weighs reach disjunctive normal form |
| Normalization.NestedAndStuckAsWritten | src/lib/lang.py:277-278 | as written, no number of passes changes `(x*x)*(x*(x+x))` |
| Flatten.Flatten | src/lib/lang.py:316-353 | at least one case; a single case unless the clause is an Or; no case is empty; every entry is a handled leaf of the clause; only a missing handler or a failed assertion is raised |
| Flatten.LeafCase | src/lib/lang.py:335-353 | a handled leaf flattens to `[[leaf]]` |
| Flatten.FlattenPreservesMeaning | src/lib/lang.py:316-333 | the cases hold (one case with all its leaves) exactly when the clause holds |
| Flatten.FlattenCaseCount | src/lib/lang.py:331-333 | one case per disjunct of the clause |
| Flatten.FlattenExact | src/lib/lang.py:316-353 | flatten succeeds exactly when the clause is in normal form and every leaf is a handled leaf (a check or a bare Variable). On success the cases are the clause's disjuncts from left to right, and an And's case is its left case followed by its right case |
| Flatten.Cnf | src/lib/lang.py:203-208 | defined as `passes` rounds of the variant's normalize, stopping at the first error, then flatten of the result |
| Flatten.CompileCnf | src/lib/lang.py:203-208 | either variant: the loop computes `passes` normalize rounds and then flatten, stopping at the first exception |
| Flatten.CnfPreservesMeaning | src/lib/lang.py:203-208 | either variant: compile_cnf's cases hold exactly when the clause holds; there is at least one case, and every entry is a handled leaf of the clause |
| Flatten.CnfComplete | src/lib/lang.py:203-208 | corrected normalize only: with at least as many passes as the clause weighs, compile_cnf succeeds on every clause of checks |
| Flatten.NestedAndRejectedAsWritten | src/lib/lang.py:322-327 | as written, compile_cnf raises AssertionError on `(x*x)*(x*(x+x))` for any number of passes |
| Flatten.NestedAndAccepted | src/lib/lang.py:260-288 | corrected: with both And children normalised, two passes give the two cases `x*x*x*x` |
| Flatten.PassesFixpoint | src/lib/lang.py:206-207 | either variant: a clause that one pass leaves unchanged is left unchanged by any number of passes of the loop |
| Compiler.WitnessTemplate.constructor | src/lib/lang.py:211-213 | a new template is empty and has no nickname |
| Compiler.WitnessTemplate.Add | src/lib/lang.py:214-215 | puts the entry in front of the existing ones |
| Compiler.WitnessTemplate.Name | src/lib/lang.py:216-217 | sets the nickname, replacing any earlier one |
| Compiler.VarScript | src/lib/lang.py:387-394 | defined as the push of the variable's value when it is bound, and nothing when it is not |
| Compiler.LeafScript | src/lib/lang.py:355-394 | defined per leaf kind as each handler's fragment: signature, key, OP_CHECKSIGVERIFY; preimage, OP_SHA256, hash, OP_EQUAL; template bytes, OP_CHECKTEMPLATEVERIFY, OP_DROP, or AssertionError unless bound to bytes; the time, then OP_CHECKLOCKTIMEVERIFY or OP_CHECKSEQUENCEVERIFY by its kind, then OP_DROP, or AssertionError when unbound and ValueError for another value; a variable's push; NotImplementedError for other kinds |
| Compiler.CompileVar | src/lib/lang.py:387-394 | a bound variable pushes its value and adds nothing; an unbound one pushes nothing and puts its name in front of the template |
| Compiler.CompileSignatureCheck | src/lib/lang.py:359-361 | signature, then key, then OP_CHECKSIGVERIFY; the signature's entry goes into the template before the key's |
| Compiler.CompilePreImageCheck | src/lib/lang.py:363-366 | preimage, OP_SHA256, hash, OP_EQUAL, with the template updated in that order |
| Compiler.CompileTemplateCheck | src/lib/lang.py:368-375 | the template variable must be bound to bytes, or an assertion fails and the nickname is left as it was; the fragment pushes it, then OP_CHECKTEMPLATEVERIFY, OP_DROP; the template is nicknamed by the bytes |
| Compiler.CompileAfter | src/lib/lang.py:377-385 | an unbound time fails the assertion; an absolute time gives OP_CHECKLOCKTIMEVERIFY and a relative time OP_CHECKSEQUENCEVERIFY; any other value raises ValueError |
| Compiler.CompileLeaf | src/lib/lang.py:355-394 | `_compile` gives the fragment or error of `LeafScript`; on success it updates the template by the leaf's entries and nickname; kinds without a handler raise NotImplementedError; a failing leaf leaves the template as it was, since every handler raises before it touches the template |
| Compiler.LeafUnchanged | src/lib/lang.py:355-394 | what a leaf compiles to depends only on the names and values of variables, which compiling never changes |
| Compiler.CompileLeaves | src/lib/lang.py:250-251 | the loop over a case's leaves: the fragments are joined and the template gains every leaf's entries, the latest leaf's first; on a failure, the first failing leaf decides the error and the template holds exactly the entries and name of the leaves before it |
| Compiler.CompileCase | src/lib/lang.py:250-251 | a case's leaves are compiled in order into one template, stopping at the first failing leaf; the fragments are joined and the template gains every leaf's entries, the latest leaf's first; on a failure the template holds exactly what the leaves before the first failing one put into it |
| Compiler.SelectorOf | src/lib/lang.py:232-247 | defined as the selector compile puts in case i's template: 1 and 0 for the two cases of OP_IF (lines 232-233), i + 1 in the generic layout (line 247) |
| Compiler.Branch | src/lib/lang.py:248-252 | defined as OP_1SUB, OP_IFDUP, OP_NOTIF, the case's fragment, OP_0, OP_ENDIF |
| Compiler.Layout | src/lib/lang.py:225-252 | defined as the three layouts for a given range check and tail: one case's fragments then 1; OP_IF, first case, OP_ELSE, second case, OP_ENDIF, 1 for two; otherwise the range check, one branch per case in order, then the tail; the first failing case's error in each |
| Compiler.RangeFor | src/lib/lang.py:245 | defined as `OP_DUP 0 n OP_WITHIN OP_VERIFY` as written and `OP_DUP 1 n+1 OP_WITHIN OP_VERIFY` corrected |
| Compiler.TailFor | src/lib/lang.py:252 | defined as nothing as written (no code follows the branches) and `OP_DROP 1` corrected |
| Compiler.Program | src/lib/lang.py:218-253 | defined as the layout with the variant's range check and tail, so the as-written program is exactly the script compile emits |
| Compiler.TemplateOf | src/lib/lang.py:221-247 | defined as the template case i ends with: its leaves' entries, latest first, then its selector when there are two or more cases; nicknamed by its last template check |
| Compiler.CompileBranch | src/lib/lang.py:246-252 | adds selector k+1 to case k's template, then compiles the case into a branch; the template ends up as `TemplateOf(outss, k)` |
| Compiler.NewTemplates | src/lib/lang.py:221 | one fresh, distinct, empty template per case |
| Compiler.CompileOne | src/lib/lang.py:225-230 | one case: its fragments, then a 1 on the stack; its template filled |
| Compiler.TwoCases | src/lib/lang.py:237-242 | the two-case script is OP_IF, first case, OP_ELSE, second case, OP_ENDIF, 1; otherwise it is the error of the first failing case |
| Compiler.CompileTwo | src/lib/lang.py:231-242 | selectors 1 and 0 go into the two templates before either case compiles; the script is the two-case layout |
| Compiler.CompileBranches | src/lib/lang.py:246-252 | one count-down branch per case, in order, or the first failing case's error; every template holds its selector and its case's entries |
| Compiler.CompileMany | src/lib/lang.py:243-252 | the variant's range check, then the branches, then its tail: as written `0 n` and nothing (lines 245, 252), corrected `1 n+1` and `OP_DROP 1`; every template is filled |
| Compiler.Compile | src/lib/lang.py:218-253 | either variant: an error from compile_cnf is returned with no templates; otherwise one fresh template per case. The script is the variant's `Program` of the cases that compile_cnf of the same variant gives, and on success every template is filled. With `AsWritten` this is exactly the script lang.py emits |
| Scripts.RangeCheck | src/lib/lang.py:245 | defined as `OP_DUP lo hi OP_WITHIN OP_VERIFY` |
| Dispatch.WithinVerifyRuns | src/lib/lang.py:245 | OP_WITHIN, OP_VERIFY let x through exactly when lo <= x < hi |
| Dispatch.RangeCheckRuns | src/lib/lang.py:245 | the range check keeps the selector exactly when lo <= x < hi and fails the script otherwise |
| Dispatch.CountDownRuns | src/lib/lang.py:248 | OP_1SUB, OP_IFDUP leave c-1, duplicated unless it is zero |
| Dispatch.TakenRuns | src/lib/lang.py:252 | a taken branch pushes zero before OP_ENDIF |
| Dispatch.TailRuns | src/lib/lang.py:229-230 | corrected layout only (as written nothing follows the branches): the tail replaces the value they leave with 1, as the one-case layout ends |
| Dispatch.BranchStep | src/lib/lang.py:248-252 | a branch is entered exactly when the selector is 1, and leaves 0; otherwise the selector counts down by one |
| Dispatch.CountingDown | src/lib/lang.py:246-252 | over branches k..n-1, selector c enters exactly branch k+c-1 when 1 <= c <= n-k, and none otherwise; c-(n-k) is left |
| Dispatch.GenericDispatch | src/lib/lang.py:243-252 | corrected layout: with the range check 1..n and the tail, selector x is accepted exactly when 1 <= x <= n, and enters case x-1 alone |
| Dispatch.EveryCaseSpendable | src/lib/lang.py:246-247 | corrected layout: the selector compile puts in case k's template enters case k, and the spend is accepted |
| Dispatch.DispatchAsWritten | src/lib/lang.py:245 | as written, the accepted selectors are exactly 0..n-1; 0 enters no branch; the last case's selector is refused |
| Dispatch.LastCaseWithoutTail | src/lib/lang.py:252 | without a tail, the last case's branch is entered but leaves 0, so the spend fails |
| Programs.VarPushedOrNamed | src/lib/lang.py:387-394 | a variable is either pushed or named in the template, never both and never neither; it is pushed exactly when bound |
| Programs.LeafCompiles | src/lib/lang.py:355-394 | signature, preimage and variable leaves always compile; a template check needs bytes; a timelock needs a time spec; otherwise AssertionError, ValueError or NotImplementedError as the source raises |
| Programs.LeafOpcodes | src/lib/lang.py:359-384 | the exact set of opcodes each kind of leaf emits, none of them flow control |
| Programs.PushThenOps | src/lib/lang.py:373-384 | a script of one push, a check opcode and OP_DROP (the shape of the template-check and timelock fragments, which `LeafOpcodes` ties to the leaves) has exactly the opcodes {check, OP_DROP} and one push |
| Programs.LeafInputs | src/lib/lang.py:359-394 | each variable slot of a leaf is pushed by its fragment or left in its template: pushes plus template entries equal the slots |
| Programs.CaseScriptOutcome | src/lib/lang.py:250-251 | a case compiles exactly when each of its leaves does; otherwise the first failing leaf's error is raised |
| Programs.CaseNoFlow | src/lib/lang.py:250-251 | a case of leaves without flow control has none itself |
| Programs.BranchesOutcome | src/lib/lang.py:246-252 | the branches compile exactly when every case does; otherwise the first failing case decides the error |
| Programs.ProgramOutcome | src/lib/lang.py:218-253 | either variant: compile succeeds exactly when every leaf of every case compiles; otherwise the first failing leaf of the first failing case decides the error |
| Programs.ProgramFlow | src/lib/lang.py:225-252 | either variant: one case uses no flow control; two cases one OP_IF, OP_ELSE and OP_ENDIF; more cases one OP_NOTIF and one OP_ENDIF per case |
| Programs.SingleFlow | src/lib/lang.py:225-230 | the one-case layout has no flow control |
| Programs.NestedFlow | src/lib/lang.py:237-242 | the two-case layout has one OP_IF, one OP_ELSE, one OP_ENDIF and no OP_NOTIF |
| Programs.ManyFlow | src/lib/lang.py:243-252 | either variant: the generic layout has one OP_NOTIF and one OP_ENDIF per case, and no OP_IF or OP_ELSE |
| Programs.RangeCheckFlow | src/lib/lang.py:245 | the range check has no flow control |
| Programs.TailFlow | src/lib/lang.py:252 | what follows the branches has no flow control: nothing as written, `OP_DROP 1` corrected |
| Programs.CountDownFlow | src/lib/lang.py:248-252 | neither the count-down head nor the zero of a taken branch is flow control |
| Programs.BranchFlow | src/lib/lang.py:248-252 | a branch has exactly one OP_NOTIF and one OP_ENDIF |
| Programs.BranchesFlow | src/lib/lang.py:246-252 | the branches have one OP_NOTIF and one OP_ENDIF per case |
| Programs.CasesStraightLine | src/lib/lang.py:355-394 | no compiled leaf of any case emits flow control |

## Left out

- `plugin-example/staker/src/plugin.rs` is not part of this model. It registers a contract with its host and does not compile clauses.
- `StringClauseMixin.__str__` and `Variable.__str__` (lang.py:27-43, 173-174) render clauses for display only.
- `Weeks` (lang.py:141-142) is a convenience constructor for a relative time variable.
- `ProgramBuilder.bind` (lang.py:200-201) has an empty body.
- CScript's serialisation is not part of this model. A script is a sequence of pushes, opcodes and nested scripts; the push encodings and the byte form are not modelled.
- Two details of how the source is written are replaced:
  - Python's `methdispatch` on the argument's class is a `match` on the clause kind.
  - Exceptions are `Result` failures carrying the exception's kind.
- Python variables are dynamically typed; a bound value is one of bytes, an integer or a time spec.
- Flatten.CompileCnf: the fixed 1000 passes are a `passes` parameter. `Flatten.CnfComplete` and `Normalization.PassesReachDnf` say how many passes suffice.
- Compiler.Compile: when a leaf fails, the source raises after it has already changed some templates. `CompileLeaf` and `CompileCase` state what the failing case's template then holds; `Compile` returns the error and does not carry that statement up to all templates, which are unobservable once compile raises.
- Normalization.NormalizeProgress: the strict decrease outside normal form is promised for the corrected variant only. As written, `(x*x)*(x*(x+x))` is never rewritten (`NestedAndStuckAsWritten`).
- Normalization.PassesReachDnf: promised for the corrected variant only, for the same reason.
- Flatten.CnfComplete: promised for the corrected variant only. As written, compile_cnf fails on `(x*x)*(x*(x+x))` for every pass count (`NestedAndRejectedAsWritten`).
- Dispatch.TailRuns: describes the corrected tail only; lang.py emits no tail after the generic layout's branches.
- Dispatch.Step: the interpreter follows the consensus rules for legacy scripts without the MINIMALIF rule. Under that rule OP_NOTIF fails on any value other than empty or 1. It is policy for P2WSH and consensus in tapscript. There, a branch skipped with a counter of 2 or more, or of -1, fails the script.
- Dispatch.Spend: only the layout's own opcodes are interpreted, and every case's fragment is taken to leave the stack it found. Three things follow:
  - The signature, hash, template and timelock checks are not evaluated.
  - The preimage fragment ends in OP_EQUAL, which leaves a boolean on the stack; the model does not follow it.
  - The one-case and two-case layouts are not interpreted, since they have no selector arithmetic.

## Findings

| source | as written | input that shows it | evidently intended | confidence | as-written member | corrected member |
|---|---|---|---|---|---|---|
| src/lib/lang.py:277-278 | when both children of an And node are And nodes, only the left one is normalised, so an Or inside the right one never moves up | `(x*x)*(x*(x+x))` for any check `x`: every pass returns the clause unchanged and flatten's assertion fails | normalise both children, so that two passes give the cases `x*x*x*x` and `x*x*x*x` | high, not executed | Flatten.NestedAndRejectedAsWritten | Flatten.NestedAndAccepted |
| src/lib/lang.py:245 | the range check `OP_DUP 0 n OP_WITHIN OP_VERIFY` admits selectors 0..n-1, while line 247 gives the cases selectors 1..n | three cases, selector 0: the range check passes, no branch is entered, and the script ends true, so the spend needs no signature; the selector 3 of the third case is refused | admit exactly 1..n | high, not executed | Dispatch.DispatchAsWritten | Dispatch.GenericDispatch |
| src/lib/lang.py:252 | a taken branch leaves 0 and nothing follows the last branch, so taking the last case leaves 0 as the script's result | three cases with the range fixed, selector 3: the third branch is entered and the script ends with 0, so it fails | end with a 1 for the script to succeed, as the other two layouts do | medium, not executed | Dispatch.LastCaseWithoutTail | Dispatch.EveryCaseSpendable |
