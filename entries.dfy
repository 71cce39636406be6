/**
 * The values a test hands to DataMocker and the collaborators it calls out to.
 * Objects whose behaviour lies outside DataMocker.java are identity handles;
 * reflection and file conversion are functions chosen by the caller.
 */
module Entries {
  import opened Results

  /** An InputStream over a mock fixture file. */
  datatype Stream = Stream(id: nat)

  /** A FileToObject conversion strategy. */
  datatype Converter = Converter(id: nat)

  /** An IRequestAsserter: a test object whose methods mirror the mocked service. */
  datatype Asserter = Asserter(id: nat)

  /** Any other Java object: a call argument or a converted fixture. */
  datatype Obj = Obj(id: nat)

  /** A java.lang.reflect.Type. */
  datatype TypeName = TypeName(name: string)

  /** The intercepted service method: its name and parameter types. */
  datatype RequestMethod = RequestMethod(name: string, parameterTypes: seq<TypeName>)

  /** A method found on an asserter's class, with its generic return type. */
  datatype AsserterMethod = AsserterMethod(name: string, parameterTypes: seq<TypeName>, genericReturnType: TypeName)

  /** An exception raised by code outside DataMocker (the asserter, the converter). */
  datatype Thrown = Thrown(id: nat)

  /**
   * One queued mock response (DataMocker.MockData). The converter and the
   * asserter are never null: setResponseMockData rejects null ones before an
   * entry is built. `used` is the only field that changes after queueing.
   */
  datatype MockData = MockData(
    fileName: string,
    inputStream: Option<Stream>,
    fileToObject: Converter,
    asserter: Asserter,
    used: bool)

  /** The entry after `setUsed(true)`: only the flag changes. */
  function Consumed(e: MockData): (r: MockData)
    ensures r.used
    ensures r.(used := e.used) == e
  {
    e.(used := true)
  }

  /** The exceptions DataMocker lets escape to its caller. */
  datatype Error =
    /** Objects.requireNonNull failed; the message, when one was given. */
    | NullPointer(message: Option<string>)
    /** checkIndexOutOfMockData: the attempt number and how many entries were mocked. */
    | IndexOutOfBounds(attempt: int, mocked: int)
    /** The asserter method threw (an assertion on the request arguments failed). */
    | AsserterThrew(cause: Thrown)
    /** FileToObject.toObject threw an unchecked exception. */
    | ConversionThrew(cause: Thrown)

  /** The message setResponseMockData gives for a null FileToObject. */
  const FileToObjectRequired: string := "文件转换方式不能为空"

  /** The message setResponseMockData gives for a null IRequestAsserter. */
  const RequestAsserterRequired: string := "请求断言器不能为空"

  /** What FileToObject.toObject does with a stream. */
  datatype Conversion =
    | Converted(value: Option<Obj>)
    | ConversionIOException
    | ConversionUnchecked(cause: Thrown)

  /**
   * The collaborators whose code is not part of this model: ClassUtil's
   * override test, Spring's ReflectionUtils.findMethod / invokeMethod, and the
   * entry's FileToObject.
   */
  datatype Environment = Environment(
    isOverrideMethod: (Asserter, RequestMethod) -> bool,
    findMethod: (Asserter, string, seq<TypeName>) -> Option<AsserterMethod>,
    invokeMethod: (AsserterMethod, Asserter, seq<Option<Obj>>) -> Outcome<Thrown>,
    toObject: (Converter, Option<Stream>, TypeName) -> Conversion)
}
