# DataMocker mock-response queue

A Dafny model of the mock-data queue in spring-easytest's `DataMocker`. A unit test
queues canned responses with `setResponseMockData`. Each response names a fixture file, its
input stream, a `FileToObject` converter and an `IRequestAsserter`. When the mocked service
is called, `isGetMockData` peeks at the next entry and asks whether its asserter overrides
the called method. `getData` then polls that entry, runs the matching asserter method on the
real arguments, and converts the fixture to the method's return type. `clearData` empties the
queue and resets the cursor. Each thread has its own queue (`MockDatas`): a list of `MockData`
entries and an `AtomicInteger` cursor.

The project has four modules:

- `Results` (results.dfy): `Option` for Java's null, plus `Result` and `Outcome` for calls that can throw.
- `Entries` (entries.dfy): the `MockData` entry, the exceptions DataMocker lets escape (`Error`),
  the two `requireNonNull` messages, and `Environment`. `Environment` holds the collaborators
  whose code is not part of this model: `ClassUtil.isOverrideMethod`, Spring's
  `ReflectionUtils.findMethod`/`invokeMethod`, and `FileToObject.toObject`. They are functions
  chosen by the caller, so every proof holds for whatever they return, provided they do not call back into DataMocker (see "Left out").
- `MockQueue` (mock_queue.dfy): each operation as a function from the old queue
  `Queue(entries, cursor)` to its result and new queue. It also proves the two invariants
  (`Valid`: `0 <= cursor <= |entries|`; `UsedMarksConsumed`: an entry's `used` flag is set
  exactly when the cursor has passed it), FIFO order and the clear/peek properties.
- `DataMocker` (data_mocker.dfy): the imperative program. The class `MockDatas` has a
  `seq<MockData>` field and an `int` cursor that its methods update in place. `ClearData` is
  the iterator loop that removes one entry per turn. Each method's postcondition ties the
  object's new state and its result to the matching `MockQueue` function.

## Model

| member | source | states |
|---|---|---|
| `Entries.Consumed` | src/main/java/com/yukms/easytest/test/mock/DataMocker.java:214-216 | `setUsed(true)` sets the flag and changes no other field of the entry |
| `MockQueue.Empty` | src/main/java/com/yukms/easytest/test/mock/DataMocker.java:119-120 | a new queue has no entries and cursor 0, so both invariants hold |
| `MockQueue.Peek` | src/main/java/com/yukms/easytest/test/mock/DataMocker.java:122-128 | peek is null exactly when the cursor is at the end; otherwise it is the entry at the cursor |
| `MockQueue.CheckIndexOutOfMockData` | src/main/java/com/yukms/easytest/test/mock/DataMocker.java:137-143 | fails exactly when peek would be null, reporting attempt `index+1` and count `size` |
| `MockQueue.Poll` | src/main/java/com/yukms/easytest/test/mock/DataMocker.java:130-135 | fails exactly when nothing is left, with the attempt/count error and the state unchanged; otherwise returns what peek saw, marked used, moves the cursor by one, and changes no other entry; keeps `Valid` and `UsedMarksConsumed` |
| `MockQueue.Append` | src/main/java/com/yukms/easytest/test/mock/DataMocker.java:145-147 | the old entries stay as a prefix, the new entry is last, the cursor is unchanged, and the next entry to hand out is unchanged; appending an unused entry keeps both invariants |
| `MockQueue.SetResponseMockData` | src/main/java/com/yukms/easytest/test/mock/DataMocker.java:38-51 | succeeds exactly when the converter and asserter are non-null; a null converter is reported first, each with its own message, and the queue is untouched; on success exactly one unused entry with the given name, stream, converter and asserter is appended |
| `MockQueue.IsGetMockData` | src/main/java/com/yukms/easytest/test/mock/DataMocker.java:59-62 | true exactly when an entry is left and its asserter overrides the request method |
| `MockQueue.BuildData` | src/main/java/com/yukms/easytest/test/mock/DataMocker.java:104-113 | fails exactly when the converter throws an unchecked exception, and then with that same exception; otherwise returns the converted object, or null when an IOException was caught inside the try block |
| `MockQueue.GetData` | src/main/java/com/yukms/easytest/test/mock/DataMocker.java:71-80 | the out-of-bounds error occurs exactly when nothing is left, and then the state is unchanged; otherwise the state is that of a poll, whatever the asserter lookup, the assertion or the conversion does. The result is a null-pointer error exactly when no asserter method matches the request's name and parameter types, the asserter's own exception when that method throws, and otherwise `buildData` of the polled entry with the method's generic return type. Keeps both invariants |
| `MockQueue.Step` | src/main/java/com/yukms/easytest/test/mock/DataMocker.java:38-95 | each DataMocker call (a failing one too) keeps `Valid` and `UsedMarksConsumed` |
| `MockQueue.Run` | src/main/java/com/yukms/easytest/test/mock/DataMocker.java:38-95 | any sequence of calls from a valid queue ends in a valid queue, and keeps `UsedMarksConsumed` |
| `MockQueue.AppendAll` | src/main/java/com/yukms/easytest/test/mock/DataMocker.java:145-147 | appending entries one at a time appends them in order and leaves the cursor |
| `MockQueue.PollTimes` | src/main/java/com/yukms/easytest/test/mock/DataMocker.java:130-135 | n polls in a row give n results and a valid queue |
| `MockQueue.PollTimesAdvances` | src/main/java/com/yukms/easytest/test/mock/DataMocker.java:130-135 | n polls with n entries left move the cursor exactly n places and keep the list's length |
| `MockQueue.PollTimesDelivers` | src/main/java/com/yukms/easytest/test/mock/DataMocker.java:130-135 | n polls with n entries left hand out the next n entries in list order, each marked used; they mark exactly those entries in the list and move the cursor n places |
| `MockQueue.FifoOrder` | src/main/java/com/yukms/easytest/test/mock/DataMocker.java:130-147 | after N entries are queued on an empty queue, N polls return them in insertion order, each marked used |
| `MockQueue.ExhaustedPollFails` | src/main/java/com/yukms/easytest/test/mock/DataMocker.java:130-143 | a poll with nothing left fails with attempt `size+1` of `size` and leaves the queue as it was |
| `MockQueue.FifoExhausted` | src/main/java/com/yukms/easytest/test/mock/DataMocker.java:130-147 | after N entries are queued on an empty queue and polled N times, poll N+1 fails with attempt N+1 of N and leaves the state unchanged |
| `MockQueue.ClearedQueueOffersNothing` | src/main/java/com/yukms/easytest/test/mock/DataMocker.java:85-95 | after clearData, peek is null, isGetMockData is false for every method, and poll fails with attempt 1 of 0 |
| `MockQueue.IsGetMockDataNeedsMatchingEntry` | src/main/java/com/yukms/easytest/test/mock/DataMocker.java:59-62 | isGetMockData is false when no entry remains, and false when the next asserter does not override the method |
| `DataMocker.MockDatas.constructor` | src/main/java/com/yukms/easytest/test/mock/DataMocker.java:26-26 | a thread's initial MockDatas is the empty queue |
| `DataMocker.MockDatas.Peek` | src/main/java/com/yukms/easytest/test/mock/DataMocker.java:122-128 | follows `MockQueue.Peek` and changes nothing |
| `DataMocker.MockDatas.CheckIndexOutOfMockData` | src/main/java/com/yukms/easytest/test/mock/DataMocker.java:137-143 | follows `MockQueue.CheckIndexOutOfMockData` |
| `DataMocker.MockDatas.Poll` | src/main/java/com/yukms/easytest/test/mock/DataMocker.java:130-135 | the new list, cursor and result are those of `MockQueue.Poll` on the old state; keeps the cursor in range and keeps used flags marking exactly the consumed entries |
| `DataMocker.MockDatas.SetMockData` | src/main/java/com/yukms/easytest/test/mock/DataMocker.java:145-147 | the list grows by the entry at its end; the cursor is unchanged; both invariants are kept when the appended entry is unused |
| `DataMocker.SetResponseMockData` | src/main/java/com/yukms/easytest/test/mock/DataMocker.java:38-51 | result and new state are those of `MockQueue.SetResponseMockData` |
| `DataMocker.IsGetMockData` | src/main/java/com/yukms/easytest/test/mock/DataMocker.java:59-62 | answers as `MockQueue.IsGetMockData`; true only while an entry is left |
| `DataMocker.GetData` | src/main/java/com/yukms/easytest/test/mock/DataMocker.java:71-80 | result and new state are those of `MockQueue.GetData` |
| `DataMocker.ClearData` | src/main/java/com/yukms/easytest/test/mock/DataMocker.java:85-95 | the loop removes the entries front to back, in their list order, until none remain; then the state is the empty queue with cursor 0 |

## Left out

- Reflection: `ClassUtil.isOverrideMethod` and `ReflectionUtils.findMethod`/`invokeMethod` are
  fields of `Environment`, not models. Their code is not part of this model.
  The asserter method's return value is ignored, as in the source.
- `setAccessible(true)` on the found asserter method is assumed to succeed. In Java it could throw,
  for example a `SecurityException`. That exception is not modelled. It would escape after the poll,
  leaving the state after the poll, which the model already gives for every other failure.
- `FileToObject.toObject` is also a field of `Environment`. It returns a value, throws an
  IOException, or throws an unchecked exception.
- Closing the input stream in `buildData`'s try-with-resources is not modelled. When `close()` throws
  an IOException, the catch logs it, and the result assigned before the close is still returned. The
  model is exact for that case. Two cases are not captured. A `close()` that throws an unchecked
  exception escapes and loses the converted result; the model still returns the result. When
  `getData` fails at the asserter lookup or the asserter call, `buildData` never runs and the entry's
  stream is never closed; the model has no notion of a stream being open or closed.
- MockQueue.BuildData: returns the converted object even when `close()` would throw an unchecked
  exception after a successful conversion. Java lets that exception escape, because closing is not modelled.
- `ThreadLocal` and `AtomicInteger`: the queue is confined to one thread, so it is one explicit
  `MockDatas` object passed to each operation, with a plain `int` cursor.
- 32-bit arithmetic: the cursor is at most the list size, and an `ArrayList` holds at most
  2^31-1 entries, so `getAndIncrement` cannot wrap. The `index+1` in the error message is
  unbounded here. In Java it would wrap only when the list holds 2^31-1 entries, which is not
  a realistic case.
- Re-entrant collaborators: the asserter method, `isOverrideMethod`, `findMethod` and `toObject` are
  pure functions here. In Java an asserter or converter could call `clearData` or `setResponseMockData`
  on the same thread while `getData` runs, and so change the queue. The model assumes they do not
  re-enter DataMocker. Under that assumption, the state after `getData` is the state after its poll.
- Entries are values, not shared objects. `poll` marks the entry in the list and returns that
  marked copy. Each entry is created inside `setResponseMockData` and never escapes except
  through `poll`, so no other reference can observe the difference.
- `fileName` may be null in Java. It is only stored and logged, so it is a plain string here.
- SLF4J logging and `MockData.toString`. `ClearData` returns the removed entries, in the order
  the loop logs them, in place of the log lines.
- The unused setters `MockDatas.setIndex` and `setMockDataList` (src/main/java/com/yukms/easytest/test/mock/DataMocker.java:157-162). They could
  break the cursor invariant, but nothing calls them.
- `DataRecord.java`: a Lombok data holder whose only logic is a list append.
