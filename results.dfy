/** Option and Result values standing in for Ruby's nil and for the
    exceptions the bot's helpers raise. */
module Results {

  datatype Option<+T> = None | Some(value: T)

  /** Why a helper of the bot fails where Ruby would raise. */
  datatype Failure =
    | UuidNotFound   // match_uuid: no UUID in the text, so `nil[1]` raises NoMethodError
    | NoFileSegment  // standard_size_image_url: the path has no segment, so `'standard_' + nil` raises TypeError

  datatype Result<+T> = Success(value: T) | Fail(error: Failure)
}
