# House sections: delete-outcome handling

This project models what the house-sections admin view
(`src/components/admin/house/section/HouseSections.tsx`) does once a delete
request for a house section ("하우스 동") has been answered by the server, and
proves properties of that model in Dafny.

- **Success.** The view takes a snapshot of the length of its section list. It
  then loops: while fewer than 10 retries have been made and the length still
  equals the snapshot, it refetches the list, sleeps 1000 ms and counts one
  retry. After the loop it always shows the success toast
  "성공적으로 하우스 동이 삭제되었습니다.".
- **Failure.** The server's error body `{code, message}` picks the toast. The
  code `NOT_FOUND_HOUSE_SECTION` gives a destructive toast titled
  "하우스 동 삭제에 실패하였습니다." whose description is the server's message, and
  nothing is logged. Any other code is logged first, then gives a destructive
  toast with the same title and the fixed description "관리자에게 문의하세요.".
- **Submit.** `onDeleteSubmit(id)` sends the delete with the view's `houseId`
  and the given section id, both unchanged.

Everything lives in one module, `HouseSections` (`house_sections.dfy`). The
external steps are the list refetch, the sleep, `console.log` and the toast
sink. Each one appends an `Effect` to the view's ordered `effects` log. The
properties are then stated over that log: how many refetches and sleeps
happen, in which order, and how many toasts of which kind.

- `OnError` is the pure classifier. `ErrorEffects`, `SuccessEffects` and
  `InvocationEffects` give the effect log each path produces.
- The class `HouseSectionsView` holds the list query's data (`houseSections`,
  which a refetch replaces) and the effect log. Its methods are the handlers,
  and each one is proved to append exactly the matching effect log.
- The server is a parameter. For a delete it is the outcome (`Acked` or
  `Rejected(error)`). For the wait loop it is `server(k)`, the list returned
  by the k-th refetch.

**The length comparison never fails.** The loop reads as if it should stop
once a re-read shows a different length. It does not. The snapshot (line 35)
and the condition (line 37) read the same `houseSections` binding, captured at
line 28. A refetch updates the query cache, not that binding. So the
comparison is always true and the loop always makes exactly 10 refetch/sleep
passes. The model keeps this behaviour: `OnDeleteSuccess` holds the captured
list in a local variable that is never reassigned. Its contract says it makes
`MaxRetries` passes whatever the server returns. `ScenarioDeleteSecond` works
through a delete where the server's list shrinks from the third re-read on,
and proves that all ten passes still happen.

## Model

| member | source | states |
|---|---|---|
| `HouseSections.WaitGuard` | src/components/admin/house/section/HouseSections.tsx:37 | the loop runs only while retries < 10; a length that differs from the snapshot stops it; when both sides come from the same binding the condition is exactly `retries < 10` |
| `HouseSections.WaitPasses` | src/components/admin/house/section/HouseSections.tsx:37-41 | n loop passes are 2n effects, alternating one refetch then one 1000 ms sleep, starting with a refetch |
| `HouseSections.WaitPassesCounts` | src/components/admin/house/section/HouseSections.tsx:38-40 | n passes contain exactly n refetches, exactly n sleeps of 1000 ms, and no toast |
| `HouseSections.SuccessNotifiesOnce` | src/components/admin/house/section/HouseSections.tsx:32-44 | the success path makes exactly 10 refetches and 10 sleeps, then emits exactly one toast, as its last effect: the non-destructive success message with no title |
| `HouseSections.OnError` | src/components/admin/house/section/HouseSections.tsx:46-64 | an absent payload throws; otherwise the toast is destructive with the fixed title; the handler logs exactly when the code is not `NOT_FOUND_HOUSE_SECTION`; the description is the server message when not logged and "관리자에게 문의하세요." when logged |
| `HouseSections.ErrorNotifiesOnce` | src/components/admin/house/section/HouseSections.tsx:47-63 | the error path never refetches or sleeps; it emits nothing when it throws and otherwise exactly one toast, as its last effect; the error is logged exactly once for a code other than `NOT_FOUND_HOUSE_SECTION` and not at all for that code, so the trace has two effects or one |
| `HouseSections.OneToastPerInvocation` | src/components/admin/house/section/HouseSections.tsx:30-71 | each delete starts with the request carrying the view's house id and the given section id; an acknowledged delete emits exactly the success toast; a rejected delete emits exactly one destructive toast and no refetch, or nothing when the handler throws |
| `HouseSections.HouseSectionsView.RefetchList` | src/components/admin/house/section/HouseSections.tsx:38 | a refetch replaces the view's list with the server's answer and records one refetch |
| `HouseSections.HouseSectionsView.Pause` | src/components/admin/house/section/HouseSections.tsx:39 | a sleep records one pause of the given duration and changes nothing else |
| `HouseSections.HouseSectionsView.Emit` | src/components/admin/house/section/HouseSections.tsx:43-63 | a toast call (lines 43, 50-54, 59-63) or the `console.log` call (line 58) appends exactly that effect and changes nothing else |
| `HouseSections.HouseSectionsView.OnDeleteSuccess` | src/components/admin/house/section/HouseSections.tsx:32-44 | the loop terminates after exactly `MaxRetries` = 10 passes whatever the server returns; the effect log grows by exactly `SuccessEffects()`; the list ends as returned by the last refetch |
| `HouseSections.HouseSectionsView.OnDeleteError` | src/components/admin/house/section/HouseSections.tsx:46-64 | throws exactly when the payload is absent; the effect log grows by exactly the classifier's log entry (if any) followed by its toast |
| `HouseSections.HouseSectionsView.OnDeleteSubmit` | src/components/admin/house/section/HouseSections.tsx:68-71 | the delete request carries this view's house id and the given section id unchanged; the log grows by `InvocationEffects` for the server's answer; the list changes only on the success path |

## Left out

- `src/components/common/TopBar.tsx` is not part of this model. Its theme handler writes a CSS property and `localStorage`, and the rest is JSX and router navigation.
- The 5-second polling effect (lines 83-89) is left out. It is React lifecycle and timer plumbing, and how it interleaves with the wait loop is concurrency that this sequential model does not capture.
- The generated query and mutation hooks (lines 4, 22-30) are library code that is not visible. A refetch is modelled as "replace the list with the server's answer". Refetch failures, the `isError` flag and query-cache behaviour are not modelled.
- `OnDeleteSubmit` runs the request and its callback as one sequential step. The asynchronous gap between `mutate` and `onSuccess`/`onError` is not modelled, and neither are overlapping deletes.
- `Pause`: sleep durations are recorded as numbers only; no wall-clock time is modelled.
- `OnError`: payloads are taken to have the declared shape `{code: string, message: string}`. A body without those fields is not modelled. An error without `response.data` (no response, or a response without data) is modelled as `Threw`, with no toast and no log.
- `OnDeleteError`: what `console.log` prints is not modelled. The log entry only records which error was logged.
- Rendering is left out: the error/retry view (lines 73-80), the card, buttons and modals, the skeletons and the slide-in animation.
