/**
 * The behaviour of one thread's MockDatas, stated on values: a list of
 * entries and the cursor of the next entry to hand out. Every operation of
 * DataMocker is a function from the old state to its result and new state;
 * the imperative model in module DataMocker is proved to follow them.
 */
module MockQueue {
  import opened Results
  import opened Entries

  datatype Queue = Queue(entries: seq<MockData>, cursor: int)

  /** The cursor never leaves the list: `0 <= index <= size`. */
  predicate Valid(q: Queue) {
    0 <= q.cursor <= |q.entries|
  }

  /** An entry is marked used exactly when the cursor has passed it. */
  predicate UsedMarksConsumed(q: Queue) {
    forall i :: 0 <= i < |q.entries| ==> (q.entries[i].used <==> i < q.cursor)
  }

  /** The state a thread starts with, and the one clearData leaves. */
  function Empty(): (q: Queue)
    ensures Valid(q) && UsedMarksConsumed(q)
    ensures |q.entries| == 0 && q.cursor == 0
  {
    Queue([], 0)
  }

  /** MockDatas.peek: the entry at the cursor, or null once all are handed out. */
  function Peek(q: Queue): (r: Option<MockData>)
    requires Valid(q)
    ensures r.None? <==> q.cursor == |q.entries|
    ensures r.Some? ==> r.value == q.entries[q.cursor]
  {
    if q.cursor >= |q.entries| then None else Some(q.entries[q.cursor])
  }

  /** MockDatas.checkIndexOutOfMockData: throws once no entry is left. */
  function CheckIndexOutOfMockData(q: Queue): (r: Outcome<Error>)
    requires Valid(q)
    ensures r.Fail? <==> Peek(q).None?
    ensures r.Fail? ==> r.error == IndexOutOfBounds(q.cursor + 1, |q.entries|)
  {
    if q.cursor >= |q.entries| then
      Fail(IndexOutOfBounds(q.cursor + 1, |q.entries|))
    else
      Pass
  }

  /**
   * MockDatas.poll: hands out the entry at the cursor, marked used, and moves
   * the cursor past it; fails, changing nothing, once no entry is left.
   */
  function Poll(q: Queue): (r: (Result<MockData, Error>, Queue))
    requires Valid(q)
    ensures Valid(r.1)
    ensures UsedMarksConsumed(q) ==> UsedMarksConsumed(r.1)
    ensures r.0.Err? <==> Peek(q).None?
    ensures r.0.Err? ==> r.0.error == IndexOutOfBounds(q.cursor + 1, |q.entries|) && r.1 == q
    ensures r.0.Ok? ==> r.0.value == Consumed(Peek(q).value)
    ensures r.0.Ok? ==> r.1.cursor == q.cursor + 1 && r.1.entries == q.entries[q.cursor := r.0.value]
  {
    match CheckIndexOutOfMockData(q)
    case Fail(e) => (Err(e), q)
    case Pass =>
      var mockData := Consumed(q.entries[q.cursor]);
      (Ok(mockData), Queue(q.entries[q.cursor := mockData], q.cursor + 1))
  }

  /** MockDatas.setMockData: appends one entry; the cursor stays where it was. */
  function Append(q: Queue, mockData: MockData): (r: Queue)
    ensures |r.entries| == |q.entries| + 1 && r.cursor == q.cursor
    ensures r.entries[..|q.entries|] == q.entries && r.entries[|q.entries|] == mockData
    ensures Valid(q) ==> Valid(r) && (Peek(q).Some? ==> Peek(r) == Peek(q))
    ensures UsedMarksConsumed(q) && Valid(q) && !mockData.used ==> UsedMarksConsumed(r)
  {
    Queue(q.entries + [mockData], q.cursor)
  }

  /**
   * DataMocker.setResponseMockData: rejects a null converter, then a null
   * asserter, before touching the queue; otherwise appends a fresh, unused
   * entry carrying the given name, stream, converter and asserter.
   */
  function SetResponseMockData(q: Queue, fileName: string, inputStream: Option<Stream>,
                               fileToObject: Option<Converter>, requestAsserter: Option<Asserter>)
    : (r: (Outcome<Error>, Queue))
    ensures r.0.Pass? <==> fileToObject.Some? && requestAsserter.Some?
    ensures r.0.Fail? ==> r.1 == q
    ensures fileToObject.None? ==> r.0 == Fail(NullPointer(Some(FileToObjectRequired)))
    ensures fileToObject.Some? && requestAsserter.None? ==> r.0 == Fail(NullPointer(Some(RequestAsserterRequired)))
    ensures r.0.Pass? ==>
      r.1 == Append(q, MockData(fileName, inputStream, fileToObject.value, requestAsserter.value, false))
    ensures Valid(q) ==> Valid(r.1)
    ensures Valid(q) && UsedMarksConsumed(q) ==> UsedMarksConsumed(r.1)
  {
    if fileToObject.None? then
      (Fail(NullPointer(Some(FileToObjectRequired))), q)
    else if requestAsserter.None? then
      (Fail(NullPointer(Some(RequestAsserterRequired))), q)
    else
      var mockData := MockData(fileName, inputStream, fileToObject.value, requestAsserter.value, false);
      (Pass, Append(q, mockData))
  }

  /**
   * DataMocker.isGetMockData: true only when an entry is left and its
   * asserter overrides the intercepted method. Consumes nothing.
   */
  function IsGetMockData(q: Queue, requestMethod: RequestMethod,
                         isOverrideMethod: (Asserter, RequestMethod) -> bool): (r: bool)
    requires Valid(q)
    ensures r <==> q.cursor < |q.entries| && isOverrideMethod(q.entries[q.cursor].asserter, requestMethod)
  {
    var mockData := Peek(q);
    mockData.Some? && isOverrideMethod(mockData.value.asserter, requestMethod)
  }

  /**
   * DataMocker.buildData: converts the entry's fixture to the asserter
   * method's return type. An IOException inside the try block is caught and
   * logged, leaving the result null; an unchecked exception escapes.
   */
  function BuildData(mockData: MockData, returnType: TypeName,
                     toObject: (Converter, Option<Stream>, TypeName) -> Conversion)
    : (r: Result<Option<Obj>, Error>)
    ensures r.Err? <==> toObject(mockData.fileToObject, mockData.inputStream, returnType).ConversionUnchecked?
    ensures r.Err? ==>
      r.error == ConversionThrew(toObject(mockData.fileToObject, mockData.inputStream, returnType).cause)
    ensures toObject(mockData.fileToObject, mockData.inputStream, returnType).ConversionIOException? ==> r == Ok(None)
    ensures toObject(mockData.fileToObject, mockData.inputStream, returnType).Converted? ==>
      r == Ok(toObject(mockData.fileToObject, mockData.inputStream, returnType).value)
  {
    match toObject(mockData.fileToObject, mockData.inputStream, returnType)
    case Converted(value) => Ok(value)
    case ConversionIOException => Ok(None)
    case ConversionUnchecked(cause) => Err(ConversionThrew(cause))
  }

  /**
   * DataMocker.getData: polls first, then looks up and runs the asserter
   * method matching the request, then converts the fixture. The entry is
   * consumed whatever happens after the poll.
   */
  function GetData(q: Queue, requestMethod: RequestMethod, args: seq<Option<Obj>>, env: Environment)
    : (r: (Result<Option<Obj>, Error>, Queue))
    requires Valid(q)
    ensures Valid(r.1)
    ensures UsedMarksConsumed(q) ==> UsedMarksConsumed(r.1)
    ensures (r.0.Err? && r.0.error.IndexOutOfBounds?) <==> q.cursor == |q.entries|
    ensures q.cursor == |q.entries| ==> r == (Err(IndexOutOfBounds(q.cursor + 1, |q.entries|)), q)
    ensures q.cursor < |q.entries| ==> r.1 == Poll(q).1
    ensures r.0.Err? && r.0.error.NullPointer? ==>
      q.cursor < |q.entries| &&
      env.findMethod(q.entries[q.cursor].asserter, requestMethod.name, requestMethod.parameterTypes).None?
    ensures q.cursor < |q.entries| ==>
      var asserter := q.entries[q.cursor].asserter;
      var asserterMethod := env.findMethod(asserter, requestMethod.name, requestMethod.parameterTypes);
      && (asserterMethod.None? ==> r.0 == Err(NullPointer(None)))
      && (asserterMethod.Some? && env.invokeMethod(asserterMethod.value, asserter, args).Fail? ==>
            r.0 == Err(AsserterThrew(env.invokeMethod(asserterMethod.value, asserter, args).error)))
      && (asserterMethod.Some? && env.invokeMethod(asserterMethod.value, asserter, args).Pass? ==>
            r.0 == BuildData(Consumed(q.entries[q.cursor]), asserterMethod.value.genericReturnType, env.toObject))
  {
    match Poll(q)
    case (Err(e), q1) => (Err(e), q1)
    case (Ok(mockData), q1) =>
      var asserter := mockData.asserter;
      match env.findMethod(asserter, requestMethod.name, requestMethod.parameterTypes)
      case None => (Err(NullPointer(None)), q1)
      case Some(asserterMethod) =>
        match env.invokeMethod(asserterMethod, asserter, args)
        case Fail(cause) => (Err(AsserterThrew(cause)), q1)
        case Pass => (BuildData(mockData, asserterMethod.genericReturnType, env.toObject), q1)
  }

  /** One call a test makes on DataMocker. */
  datatype Call =
    | SetResponse(fileName: string, inputStream: Option<Stream>,
                  fileToObject: Option<Converter>, requestAsserter: Option<Asserter>)
    | Check(requestMethod: RequestMethod)
    | Get(requestMethod: RequestMethod, args: seq<Option<Obj>>)
    | Clear

  /** The state after one call (a call that throws leaves what it left). */
  function Step(q: Queue, call: Call, env: Environment): (r: Queue)
    requires Valid(q)
    ensures Valid(r)
    ensures UsedMarksConsumed(q) ==> UsedMarksConsumed(r)
  {
    match call
    case SetResponse(fileName, inputStream, fileToObject, requestAsserter) =>
      SetResponseMockData(q, fileName, inputStream, fileToObject, requestAsserter).1
    case Check(_) => q
    case Get(requestMethod, args) => GetData(q, requestMethod, args, env).1
    case Clear => Empty()
  }

  /**
   * The state after any sequence of calls: both invariants hold throughout,
   * whatever the calls and whatever the collaborators do.
   */
  function Run(q: Queue, calls: seq<Call>, env: Environment): (r: Queue)
    requires Valid(q)
    ensures Valid(r)
    ensures UsedMarksConsumed(q) ==> UsedMarksConsumed(r)
    decreases |calls|
  {
    if calls == [] then q else Run(Step(q, calls[0], env), calls[1..], env)
  }

  /** Appending several entries in turn. */
  function AppendAll(q: Queue, es: seq<MockData>): (r: Queue)
    ensures r.entries == q.entries + es && r.cursor == q.cursor
    decreases |es|
  {
    if es == [] then q
    else
      var r := AppendAll(Append(q, es[0]), es[1..]);
      assert q.entries + [es[0]] + es[1..] == q.entries + es;
      r
  }

  /** Polling n times in a row: the results in order and the final state. */
  function PollTimes(q: Queue, n: nat): (r: (seq<Result<MockData, Error>>, Queue))
    requires Valid(q)
    ensures |r.0| == n && Valid(r.1)
    decreases n
  {
    if n == 0 then ([], q)
    else
      var (first, q1) := Poll(q);
      var (rest, q2) := PollTimes(q1, n - 1);
      ([first] + rest, q2)
  }

  /** Polling n entries that are there moves the cursor n places and keeps the list's length. */
  lemma {:induction false} PollTimesAdvances(q: Queue, n: nat)
    requires Valid(q) && q.cursor + n <= |q.entries|
    ensures PollTimes(q, n).1.cursor == q.cursor + n
    ensures |PollTimes(q, n).1.entries| == |q.entries|
    decreases n
  {
    if n > 0 {
      PollTimesAdvances(Poll(q).1, n - 1);
    }
  }

  /**
   * Polling n entries that are there hands out the next n entries in list
   * order, each marked used, marks exactly those used in the list, and
   * moves the cursor n places.
   */
  lemma {:induction false} PollTimesDelivers(q: Queue, n: nat)
    requires Valid(q) && q.cursor + n <= |q.entries|
    ensures forall i :: 0 <= i < n ==> PollTimes(q, n).0[i] == Ok(Consumed(q.entries[q.cursor + i]))
    ensures PollTimes(q, n).1.cursor == q.cursor + n
    ensures |PollTimes(q, n).1.entries| == |q.entries|
    ensures forall i :: 0 <= i < |q.entries| ==>
      PollTimes(q, n).1.entries[i] == if q.cursor <= i < q.cursor + n then Consumed(q.entries[i]) else q.entries[i]
    decreases n
  {
    if n > 0 {
      var (first, q1) := Poll(q);
      var mockData := Consumed(q.entries[q.cursor]);
      assert first == Ok(mockData);
      assert q1 == Queue(q.entries[q.cursor := mockData], q.cursor + 1);
      PollTimesDelivers(q1, n - 1);
      var (rest, q2) := PollTimes(q1, n - 1);
      assert PollTimes(q, n) == ([first] + rest, q2);
      forall i | 0 <= i < n
        ensures ([first] + rest)[i] == Ok(Consumed(q.entries[q.cursor + i]))
      {
        if i > 0 {
          assert ([first] + rest)[i] == rest[i - 1];
        }
      }
      forall i | 0 <= i < |q.entries|
        ensures q2.entries[i] == if q.cursor <= i < q.cursor + n then Consumed(q.entries[i]) else q.entries[i]
      {
        assert q1.entries[i] == if i == q.cursor then mockData else q.entries[i];
      }
    }
  }

  /**
   * FIFO: after N entries are queued on an empty queue, N polls return them
   * in the order they were queued.
   */
  lemma {:induction false} FifoOrder(es: seq<MockData>)
    ensures Valid(AppendAll(Empty(), es))
    ensures forall i :: 0 <= i < |es| ==>
      PollTimes(AppendAll(Empty(), es), |es|).0[i] == Ok(Consumed(es[i]))
  {
    var q := AppendAll(Empty(), es);
    assert q.entries == es && q.cursor == 0;
    PollTimesDelivers(q, |es|);
  }

  /** A poll on a queue with nothing left reports the next attempt and changes nothing. */
  lemma ExhaustedPollFails(q: Queue)
    requires Valid(q) && q.cursor == |q.entries|
    ensures Poll(q) == (Err(IndexOutOfBounds(|q.entries| + 1, |q.entries|)), q)
  {
  }

  /**
   * After N entries are queued on an empty queue and polled N times, the
   * (N+1)th poll fails, reporting attempt N+1 of N, and changes nothing.
   */
  lemma {:induction false} FifoExhausted(es: seq<MockData>)
    ensures Valid(AppendAll(Empty(), es))
    ensures var drained := PollTimes(AppendAll(Empty(), es), |es|).1;
      Poll(drained) == (Err(IndexOutOfBounds(|es| + 1, |es|)), drained)
  {
    var q := AppendAll(Empty(), es);
    PollTimesAdvances(q, |es|);
    ExhaustedPollFails(PollTimes(q, |es|).1);
  }

  /** After clearData nothing is left: peek finds nothing, isGetMockData says no. */
  lemma ClearedQueueOffersNothing(requestMethod: RequestMethod, isOverrideMethod: (Asserter, RequestMethod) -> bool)
    ensures Peek(Empty()) == None
    ensures !IsGetMockData(Empty(), requestMethod, isOverrideMethod)
    ensures Poll(Empty()) == (Err(IndexOutOfBounds(1, 0)), Empty())
  {
  }

  /**
   * isGetMockData is false once every entry is consumed, and false when the
   * next entry's asserter does not override the intercepted method.
   */
  lemma IsGetMockDataNeedsMatchingEntry(q: Queue, requestMethod: RequestMethod,
                                        isOverrideMethod: (Asserter, RequestMethod) -> bool)
    requires Valid(q)
    ensures q.cursor == |q.entries| ==> !IsGetMockData(q, requestMethod, isOverrideMethod)
    ensures q.cursor < |q.entries| && !isOverrideMethod(q.entries[q.cursor].asserter, requestMethod)
            ==> !IsGetMockData(q, requestMethod, isOverrideMethod)
  {
  }
}
