/**
 * What the etcd client library (clientv3 and its concurrency package) answers
 * to the DDL owner manager, as plain values. Every blocking call the owner
 * manager makes is replaced by the outcome it produced, so that the manager's
 * own decisions can be stated over all possible answers.
 */
module EtcdOutcomes {

  datatype Option<T> = None | Some(value: T)

  /** An opaque handle to a leased etcd session. */
  type SessionHandle = nat

  /** How an error returned by etcd is classified: context cancelled or deadline
      exceeded (isContextFinished), or anything else. */
  datatype Failure = CtxFinished | Other

  /** The outcome of one concurrency.NewSession call. */
  datatype Attempt = Ok(session: SessionHandle) | Fail(err: Failure)

  /** One key/value record of a leader query's response. */
  datatype KeyValue = KeyValue(key: string, value: string)

  /** The outcome of Election.Leader: an error (ErrElectionNoLeader among
      them) or a response carrying the leader records. etcd answers a
      successful query with at least one record (an empty one is reported as
      ErrElectionNoLeader), so a response is its first record, Kvs[0], and
      the records after it. */
  datatype LeaderResponse = LeaderErr | LeaderOk(first: KeyValue, others: seq<KeyValue>)

  datatype EventType = Put | Delete

  datatype Event = Event(kind: EventType, key: string)

  /** One message received on a watch channel. */
  datatype WatchResponse = WatchResponse(canceled: bool, events: seq<Event>)

  /** A Done channel that a select can find closed. */
  datatype Signal = SessionDone | CtxDone

  /** Which case of the select in watchOwner fires: a watch response arrives,
      or the session's or the context's Done channel is closed. */
  datatype WatchCase = Received(resp: WatchResponse) | Fired(sig: Signal)

  /**
   * Everything the environment decides during one iteration of campaignLoop:
   *  - top:      which case of the select at the loop top fires (None: the
   *              default case, nothing is done)
   *  - renew:    the answers to the attempts of the unlimited newSession made
   *              when the session is done at the loop top
   *  - campaign: the error Election.Campaign returns (None: it won)
   *  - leader:   the answer of Election.Leader
   *  - watch:    for each key watchOwner may open its watch channel on, the
   *              cases its select then takes, in order
   * Fields that the iteration does not reach are ignored.
   */
  datatype Iteration = Iteration(
    top: Option<Signal>,
    renew: nat -> Attempt,
    campaign: Option<Failure>,
    leader: LeaderResponse,
    watch: string -> seq<WatchCase>)
}
