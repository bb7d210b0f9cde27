/** The decoded reply of the send_email endpoint
    (com.coresender.sdk.data.SendEmailResponse). The SDK only declares these
    shapes and lets its JSON library fill them; they carry no logic and are
    here as the type of what a send returns. */
module Responses {
  import opened Wrappers

  /** SendEmailResponse.Error: errors nest, a field error holding sub-errors. */
  datatype Error = Error(
    code: Nullable<string>,
    description: Nullable<string>,
    field: Nullable<string>,
    value: Nullable<string>,
    errors: Nullable<seq<Error>>)

  /** SendEmailResponse.Data: the outcome for one message of the batch. */
  datatype Data = Data(
    messageId: Nullable<string>,
    customId: Nullable<string>,
    status: Nullable<string>,
    errors: Nullable<seq<Error>>,
    code: Nullable<string>)

  /** SendEmailResponse.Meta: request metadata. */
  datatype Meta = Meta(rqTime: Nullable<string>)

  datatype SendEmailResponse = SendEmailResponse(data: Nullable<seq<Data>>, meta: Nullable<Meta>)
}
