// The parsed configuration: per-group parameters keyed by the hash of the
// group name, the streams of each group, and the global options.

module GroupConfig {
  import opened Structures

  /**
   * The parameters of one group. Timeouts and periods are whole seconds, as
   * written in the configuration; they are multiplied by a second where used.
   */
  datatype ConfigGroup = ConfigGroup(
    name: string,
    streamType: StreamType,
    probers: int,
    mediaProbers: int,
    checkBrokenTime: int,
    connectTimeout: int,
    rwTimeout: int,
    slowWarningTimeout: int,
    verySlowWarningTimeout: int,
    timeBetweenTasks: int,
    taskTTL: int,
    tryOneSegment: bool,
    methodHTTP: string,
    parseMethod: string,
    user: string,
    pass: string)

  /** The zero value returned for a group that is not configured. */
  const ZeroConfigGroup := ConfigGroup("", UNKSTREAM, 0, 0, 0, 0, 0, 0, 0, 0, 0, false, "", "", "", "")

  class Config {
    var groupParams: map<Key, ConfigGroup>
    var groupStreams: map<Key, map<Key, Stream>>
    var samples: seq<string>
    var userAgents: seq<string>
    var listenHTTP: string
    var user: string
    var pass: string
    var expireDurationDB: int
    // The SHA-256 digest of a string's bytes.
    const hash: string -> Key

    constructor(hash: string -> Key)
      ensures groupParams == map[] && groupStreams == map[]
      ensures samples == [] && userAgents == [] && listenHTTP == "" && user == "" && pass == ""
      ensures expireDurationDB == 0 && this.hash == hash
    {
      groupParams := map[];
      groupStreams := map[];
      samples := [];
      userAgents := [];
      listenHTTP := "";
      user := "";
      pass := "";
      expireDurationDB := 0;
      this.hash := hash;
    }

    /** The parameters of the group named `groupName`: a copy of the stored ones, or zeros for an unknown group. */
    function Params(groupName: string): (g: ConfigGroup)
      reads this
      ensures hash(groupName) in groupParams ==> g == groupParams[hash(groupName)]
      ensures hash(groupName) !in groupParams ==> g == ZeroConfigGroup
    {
      if hash(groupName) in groupParams then groupParams[hash(groupName)] else ZeroConfigGroup
    }
  }
}
