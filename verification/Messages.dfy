/** Messages between nodes (src/raft/message.rs). Snapshot transfer is not part of
    this model. */
module Messages {
  import opened Basics
  import opened Machine

  datatype Request =
    | ReadRequest(query: ReadCommand)
    | WriteRequest(put: Put)
    | SessionRequest(client: ClientId, serial: nat, put: Put)
    | StatusRequest
    | ChangeMembership(voters: set<NodeId>)

  datatype Error = Abort | InvalidInput(reason: string)

  datatype Response =
    | ReadResult(answer: ReadReply)
    | WriteResult(reply: Reply)
    | StatusResult(leader: NodeId, term: Term, matchIndex: map<NodeId, Index>, commit: Index, applied: Index, voters: set<NodeId>)
    | MembershipResult(index: Index)
    | Failed(error: Error)

  datatype Message =
    | PreCampaign(lastIndex: Index, lastTerm: Term)
    | PreCampaignResponse(vote: bool)
    | Campaign(lastIndex: Index, lastTerm: Term)
    | CampaignResponse(vote: bool)
    | Heartbeat(lastIndex: Index, commitIndex: Index, readSeq: nat)
    | HeartbeatResponse(matchIndex: Index, readSeq: nat)
    | Append(baseIndex: Index, baseTerm: Term, entries: seq<Entry>)
    | AppendResponse(matchIndex: Index, rejectIndex: Index)
    | Read(readSeq: nat)
    | ReadResponse(readSeq: nat)
    | ClientRequest(id: RequestId, request: Request)
    | ClientResponse(id: RequestId, response: Response)

  datatype Envelope = Envelope(from: NodeId, term: Term, to: NodeId, message: Message)
}
