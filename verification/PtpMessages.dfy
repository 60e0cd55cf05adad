/** Message contents exchanged by the time-synchronization state machines. */
module PtpMessages {
  import opened Words
  import opened ScaledTime

  /** A clock identity is eight octets, read here as one number. */
  datatype PortIdentity = PortIdentity(clock: u64, port: u16)

  datatype PdelayReq = PdelayReq(sequenceId: u16, source: PortIdentity)

  datatype PdelayResp = PdelayResp(sequenceId: u16, source: PortIdentity,
                                   requestReceipt: PtpTimestamp, requesting: PortIdentity)

  datatype PdelayRespFollowUp = PdelayRespFollowUp(sequenceId: u16, source: PortIdentity,
                                                   responseOrigin: PtpTimestamp, requesting: PortIdentity)

  /** A Sync carries no origin time: the Follow_Up with its id brings it. */
  datatype SyncMsg = SyncMsg(sequenceId: u16, source: PortIdentity, logMessageInterval: int, correction: u64)

  datatype FollowUpMsg = FollowUpMsg(sequenceId: u16, source: PortIdentity, logMessageInterval: int, correction: u64,
                               preciseOrigin: PtpTimestamp, gmTimeBaseIndicator: u16, lastGmPhaseChange: UScaledNs)

  /** The synchronization data handed from machine to machine inside a node (MDSyncSend, MDSyncReceive). */
  datatype MDSync = MDSync(source: PortIdentity, logMessageInterval: int,
                           preciseOrigin: PtpTimestamp, correction: UScaledNs, upstreamTxTime: UScaledNs,
                           gmTimeBaseIndicator: u16, lastGmPhaseChange: UScaledNs)

  /** The same data between ports and clocks of one node; port 0 stands for the node's own clock. */
  datatype PortSyncSync = PortSyncSync(localPort: u16, data: MDSync, receiptTimeout: UScaledNs)

  /** What a timestamping unit reports for an event frame. */
  datatype TsuTimestamp = TsuTimestamp(ts: UScaledNs, sequenceId: u16)
}
