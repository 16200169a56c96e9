/**
 * What a listing request to the job API comes back with, after `res.json()`.
 * `Failed` covers a non-ok status, a network error and a body that is not JSON;
 * `Received(data)` holds the body's `data` field, `None` when it is not an array.
 * Elements of the array may themselves be `null` (`None`).
 */
module ApiResponse {
  import opened Wrappers

  datatype Response<T> = Failed | Received(data: Option<seq<Option<T>>>)
}
