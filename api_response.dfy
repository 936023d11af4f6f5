/**
 * `ApiResponse<T>`: the immutable envelope the HTTP clients return. A datatype value
 * cannot change after it is built, as the init-only properties of the source promise.
 * `data` is `None` where the source holds `default(T)`, the null reference for the
 * reference types it is used with.
 */
module ApiResponses {
  import opened Wrappers
  import opened HttpStatus

  datatype ApiResponse<T> = ApiResponse(
    isSuccess: bool,
    data: Option<T>,
    message: Option<string>,
    statusCode: int)

  /** `ApiResponse<T>.Success(data, statusCode = OK, message = null)` */
  function Success<T>(data: T, statusCode: int := OK, message: Option<string> := None): (r: ApiResponse<T>)
    ensures r.isSuccess && r.data == Some(data)
    ensures r.statusCode == statusCode && r.message == message
  {
    ApiResponse(true, Some(data), message, statusCode)
  }

  /** `ApiResponse<T>.Success(statusCode = OK, message = null)`, the overload without a payload. */
  function SuccessWithoutData<T>(statusCode: int := OK, message: Option<string> := None): (r: ApiResponse<T>)
    ensures r.isSuccess && r.data.None?
    ensures r.statusCode == statusCode && r.message == message
  {
    ApiResponse(true, None, message, statusCode)
  }

  /** `ApiResponse<T>.Failure(message, statusCode = InternalServerError)` */
  function Failure<T>(message: string, statusCode: int := InternalServerError): (r: ApiResponse<T>)
    ensures !r.isSuccess && r.data.None?
    ensures r.statusCode == statusCode && r.message == Some(message)
  {
    ApiResponse(false, None, Some(message), statusCode)
  }

  /** A response came from one of the three factories. */
  ghost predicate FromFactory<T(!new)>(r: ApiResponse<T>) {
    || (exists d: T :: r == Success(d, r.statusCode, r.message))
    || r == SuccessWithoutData(r.statusCode, r.message)
    || (exists m: string :: r == Failure(m, r.statusCode))
  }

  /**
   * The factories reach exactly the responses in which a payload implies success and a
   * failure carries a message: no factory builds a failed response with data.
   */
  lemma FactoryResponses<T(!new)>(r: ApiResponse<T>)
    ensures FromFactory(r) <==> (r.data.Some? ==> r.isSuccess) && (!r.isSuccess ==> r.message.Some?)
  {
    if r.isSuccess && r.data.Some? {
      assert r == Success(r.data.value, r.statusCode, r.message);
    } else if !r.isSuccess && r.message.Some? && r.data.None? {
      assert r == Failure(r.message.value, r.statusCode);
    }
  }
}
