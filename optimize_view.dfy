/** The HTTP endpoint that asks for a batch to be optimized. It only checks
    the batch and hands the job to the task queue; it never writes the batch. */
module OptimizeView {
  import opened Support
  import opened Models
  import opened Store

  datatype Response =
    | NotFound404                              // the batch is missing or belongs to someone else
    | BadRequest400                            // only draft batches may be optimized
    | Accepted(status: string, taskId: string) // the job was enqueued

  /** What the endpoint answers and which batch ids it put on the task queue. */
  datatype ViewResult = ViewResult(response: Response, enqueued: seq<Id>)

  /** The batch the requester may see under `batchId`, if any. */
  predicate Owns(batches: seq<DeliveryBatch>, batchId: Id, requester: Id)
  {
    exists i :: 0 <= i < |batches| && batches[i].id == batchId && batches[i].owner == requester
  }

  /** POST on the optimize endpoint. `taskId` is the id the queue returns
      for the job it accepts. */
  function OptimizeBatch(batches: seq<DeliveryBatch>, batchId: Id, requester: Id, taskId: string): (r: ViewResult)
    requires DistinctBy(BatchKey, batches)
    ensures r.response == NotFound404 <==> !Owns(batches, batchId, requester)
    ensures r.response == BadRequest400 <==>
              exists i :: 0 <= i < |batches| && batches[i].id == batchId && batches[i].owner == requester
                          && batches[i].status != Draft
    ensures r.response.Accepted? <==>
              exists i :: 0 <= i < |batches| && batches[i].id == batchId && batches[i].owner == requester
                          && batches[i].status == Draft
    ensures r.response.Accepted? ==> r.response == Accepted("optimizing", taskId) && r.enqueued == [batchId]
    ensures !r.response.Accepted? ==> r.enqueued == []
  {
    match IndexOfBatch(batches, batchId)
    case None => ViewResult(NotFound404, [])
    case Some(i) =>
      if batches[i].owner != requester then ViewResult(NotFound404, [])
      else if batches[i].status != Draft then ViewResult(BadRequest400, [])
      else ViewResult(Accepted("optimizing", taskId), [batchId])
  }
}
