/** The exceptions the modelled code raises, as values. */
module Errors {

  datatype Exception =
    | ValueError(message: string)          // `_format_message` on an unknown origin tag
    | IndexError                           // `query_result[0]` on an empty client answer
    | HttpError(status: nat, detail: string) // `HTTPException(status_code=..., detail=...)`
    | AttributeError(name: string)         // attribute read on an object that lacks it
    | ValidationError(missing: set<string>) // a pydantic model built without required fields
    | ModelTypeError(dto: string)          // pydantic `model_validate` of an object that is not a dict, without `from_attributes`
    | ArgumentError                        // `pg_insert` given something that is not a table
}
