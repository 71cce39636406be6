/**
 * DataMocker as the program runs it: one thread's MockDatas object, whose
 * list and cursor are updated in place, and DataMocker's static operations
 * on it. The ThreadLocal lookup becomes the `mocks` parameter: each thread
 * has exactly one such object and nothing else touches it. Each method is
 * proved to follow the matching function of module MockQueue.
 */
module DataMocker {
  import opened Results
  import opened Entries
  import MockQueue

  /** DataMocker.MockDatas: the queued entries and the cursor `index`. */
  class MockDatas {
    var index: int
    var mockDataList: seq<MockData>

    /** The state as a value. */
    ghost function Model(): MockQueue.Queue
      reads this
    {
      MockQueue.Queue(mockDataList, index)
    }

    ghost predicate Valid()
      reads this
    {
      MockQueue.Valid(Model())
    }

    /** What ThreadLocal.withInitial(MockDatas::new) hands a new thread. */
    constructor ()
      ensures Model() == MockQueue.Empty()
      ensures Valid() && MockQueue.UsedMarksConsumed(Model())
    {
      index := 0;
      mockDataList := [];
    }

    /** MockDatas.peek: the entry at the cursor, or null; changes nothing. */
    method Peek() returns (r: Option<MockData>)
      requires Valid()
      ensures r == MockQueue.Peek(Model())
      ensures r.None? <==> index == |mockDataList|
    {
      var i := index;
      if i >= |mockDataList| {
        return None;
      }
      return Some(mockDataList[i]);
    }

    /** MockDatas.checkIndexOutOfMockData: fails once every entry is handed out. */
    method CheckIndexOutOfMockData() returns (r: Outcome<Error>)
      requires Valid()
      ensures r == MockQueue.CheckIndexOutOfMockData(Model())
      ensures r.Fail? <==> index == |mockDataList|
    {
      var i := index;
      if i >= |mockDataList| {
        return Fail(IndexOutOfBounds(i + 1, |mockDataList|));
      }
      return Pass;
    }

    /**
     * MockDatas.poll: after the bounds check, hands out the entry at the
     * cursor, advances the cursor and marks the entry used.
     */
    method Poll() returns (r: Result<MockData, Error>)
      requires Valid()
      modifies this
      ensures (r, Model()) == MockQueue.Poll(old(Model()))
      ensures Valid()
      ensures old(MockQueue.UsedMarksConsumed(Model())) ==> MockQueue.UsedMarksConsumed(Model())
    {
      var check := CheckIndexOutOfMockData();
      if check.Fail? {
        return Err(check.error);
      }
      var i := index;
      index := index + 1;
      var mockData := Consumed(mockDataList[i]);
      mockDataList := mockDataList[i := mockData];
      return Ok(mockData);
    }

    /** MockDatas.setMockData: appends to the list; the cursor is untouched. */
    method SetMockData(mockData: MockData)
      modifies this
      ensures Model() == MockQueue.Append(old(Model()), mockData)
      ensures mockDataList == old(mockDataList) + [mockData] && index == old(index)
      ensures old(Valid()) ==> Valid()
      ensures old(Valid() && MockQueue.UsedMarksConsumed(Model())) && !mockData.used ==>
        MockQueue.UsedMarksConsumed(Model())
    {
      mockDataList := mockDataList + [mockData];
    }
  }

  /**
   * DataMocker.setResponseMockData: checks the converter, then the asserter,
   * and only then queues a new entry.
   */
  method SetResponseMockData(mocks: MockDatas, fileName: string, inputStream: Option<Stream>,
                             fileToObject: Option<Converter>, requestAsserter: Option<Asserter>)
    returns (r: Outcome<Error>)
    modifies mocks
    ensures (r, mocks.Model()) ==
      MockQueue.SetResponseMockData(old(mocks.Model()), fileName, inputStream, fileToObject, requestAsserter)
  {
    if fileToObject.None? {
      return Fail(NullPointer(Some(FileToObjectRequired)));
    }
    if requestAsserter.None? {
      return Fail(NullPointer(Some(RequestAsserterRequired)));
    }
    var mockData := MockData(fileName, inputStream, fileToObject.value, requestAsserter.value, false);
    mocks.SetMockData(mockData);
    return Pass;
  }

  /** DataMocker.isGetMockData: peeks and asks whether the asserter overrides the method. */
  method IsGetMockData(mocks: MockDatas, requestMethod: RequestMethod,
                       isOverrideMethod: (Asserter, RequestMethod) -> bool)
    returns (r: bool)
    requires mocks.Valid()
    ensures r == MockQueue.IsGetMockData(mocks.Model(), requestMethod, isOverrideMethod)
    ensures r ==> mocks.index < |mocks.mockDataList|
  {
    var mockData := mocks.Peek();
    return mockData.Some? && isOverrideMethod(mockData.value.asserter, requestMethod);
  }

  /**
   * DataMocker.getData: polls the next entry, finds the asserter method with
   * the request's name and parameter types (a missing one is a null pointer),
   * runs it on the arguments, and converts the fixture to its return type.
   */
  method GetData(mocks: MockDatas, requestMethod: RequestMethod, args: seq<Option<Obj>>, env: Environment)
    returns (r: Result<Option<Obj>, Error>)
    requires mocks.Valid()
    modifies mocks
    ensures (r, mocks.Model()) == MockQueue.GetData(old(mocks.Model()), requestMethod, args, env)
  {
    var polled := mocks.Poll();
    if polled.Err? {
      return Err(polled.error);
    }
    var mockData := polled.value;
    var asserter := mockData.asserter;
    var asserterMethod := env.findMethod(asserter, requestMethod.name, requestMethod.parameterTypes);
    if asserterMethod.None? {
      return Err(NullPointer(None));
    }
    var invoked := env.invokeMethod(asserterMethod.value, asserter, args);
    if invoked.Fail? {
      return Err(AsserterThrew(invoked.error));
    }
    return MockQueue.BuildData(mockData, asserterMethod.value.genericReturnType, env.toObject);
  }

  /**
   * DataMocker.clearData: removes the entries one by one through the list's
   * iterator, then sets the cursor back to 0. Returns the removed entries in
   * the order they were logged.
   */
  method ClearData(mocks: MockDatas) returns (cleared: seq<MockData>)
    modifies mocks
    ensures cleared == old(mocks.mockDataList)
    ensures mocks.Model() == MockQueue.Empty()
  {
    cleared := [];
    while |mocks.mockDataList| > 0
      invariant cleared + mocks.mockDataList == old(mocks.mockDataList)
      decreases |mocks.mockDataList|
    {
      var mockData := mocks.mockDataList[0];
      mocks.mockDataList := mocks.mockDataList[1..];
      cleared := cleared + [mockData];
    }
    mocks.index := 0;
  }
}
