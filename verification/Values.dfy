/** Values shared by the capture model: options, directions, times and the
    identities an observation carries. */
module Values {

  datatype Option<+T> = None | Some(value: T)

  /** Which way bytes crossed the TLS boundary. */
  datatype Direction = Sent | Received

  function Other(d: Direction): Direction { if d.Sent? then Received else Sent }

  /** One value per direction; stands for the source's maps keyed by direction. */
  datatype Both<+T> = Both(sent: T, received: T) {
    function Of(d: Direction): (v: T) {
      if d.Sent? then sent else received
    }
  }

  function With<T>(both: Both<T>, d: Direction, v: T): (r: Both<T>)
    ensures r.Of(d) == v
    ensures forall e: Direction :: e != d ==> r.Of(e) == both.Of(e)
  {
    if d.Sent? then both.(sent := v) else both.(received := v)
  }

  /** A wall-clock instant; zero is the absent time. */
  type Time = nat

  datatype Namespace = Namespace(device: nat, inode: nat) {
    predicate Known() { device != 0 || inode != 0 }
  }

  datatype Start = Start(determined: bool, ticks: nat)

  /** An admitted execution's identity. */
  datatype InstanceKey = InstanceKey(namespace: Namespace, pid: int, generation: nat) {
    predicate Valid() { namespace.Known() && pid > 0 && generation != 0 }
  }

  /** An admitted execution: its identity, with its start as evidence. */
  datatype Instance = Instance(key: InstanceKey, start: Start)

  datatype Process = Process(pid: int, startTime: nat)
}
