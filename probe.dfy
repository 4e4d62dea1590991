/** The probe port (pkg/pinger/ping.go): one ICMP echo exchange with a
    timeout. The exchange itself is supplied by the caller; this module holds
    what it is asked and what it answers. */
module Probe {
  import opened Targets

  /** What one echo exchange reports: whether a reply came back in time, and
      its round-trip time in nanoseconds. */
  datatype Reply = Reply(success: bool, rtt: int)

  /** One call of pingOnce: the round, the target's position, the target
      itself (including a target without an address, which is probed like
      any other) and the timeout. */
  datatype ProbeCall = ProbeCall(round: nat, index: nat, target: ResolvedTarget, timeout: int)

  type ProbePort = ProbeCall -> Reply

  /** PingResult, without its error value. */
  datatype PingResult = PingResult(target: ResolvedTarget, success: bool, rtt: int)

  /** pingOnce: the reply of the probe, tagged with the target it was for. */
  function PingOnce(call: ProbeCall, probe: ProbePort): PingResult {
    var reply := probe(call);
    PingResult(call.target, reply.success, reply.rtt)
  }
}
