/** The outcome of asking Mapmeter whether it will store messages for an API key. */
module MapmeterStorageResult {
  import opened Wrappers

  /** An API key, whether Mapmeter accepts it, and an optional server-side error text.
   *  Values are built only through the three factories below. */
  datatype StorageResult = StorageResult(apiKey: string, isValidApiKey: bool, error: Option<string>)
  {
    predicate IsError()
    {
      error.Some?
    }

    /** `Optional.get`: defined only when there is an error. */
    function GetError(): (e: string)
      requires IsError()
    {
      error.value
    }
  }

  /** The key was rejected: not valid, no error. */
  function InvalidApiKey(apiKey: string): (r: StorageResult)
    ensures r.apiKey == apiKey && !r.isValidApiKey && !r.IsError()
  {
    StorageResult(apiKey, false, None)
  }

  /** Mapmeter failed internally: not valid, with the error text. */
  function Error(apiKey: string, error: string): (r: StorageResult)
    ensures r.apiKey == apiKey && !r.isValidApiKey && r.IsError() && r.GetError() == error
  {
    StorageResult(apiKey, false, Some(error))
  }

  /** The key is accepted: valid, no error. */
  function Success(apiKey: string): (r: StorageResult)
    ensures r.apiKey == apiKey && r.isValidApiKey && !r.IsError()
  {
    StorageResult(apiKey, true, None)
  }

  /** A value made by one of the factories. */
  predicate Made(r: StorageResult)
  {
    r == InvalidApiKey(r.apiKey) || r == Success(r.apiKey)
    || (r.error.Some? && r == Error(r.apiKey, r.error.value))
  }

  /** The factories' results are told apart by `isValidApiKey` and `isError`: a valid key
   *  never comes with an error. */
  lemma FactoriesAreDistinct(r: StorageResult)
    requires Made(r)
    ensures r.isValidApiKey ==> r == Success(r.apiKey)
    ensures !r.isValidApiKey && !r.IsError() ==> r == InvalidApiKey(r.apiKey)
    ensures r.IsError() ==> r == Error(r.apiKey, r.GetError())
  {
  }
}
