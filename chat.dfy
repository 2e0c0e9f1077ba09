/** The conversation data shared by the CLIs: role-tagged messages, the
    mutable conversation state (`state["messages"]`), the session
    configuration of src/ui/config.py and the module-global debug flag of
    src/ui/commands.py. */
module Chat {
  import opened Text

  datatype Role = System | User | Assistant | Tool

  /** A `{"role": ..., "content": ...}` message. */
  datatype Message = Message(role: Role, content: string)

  /** The `state` dict whose `"messages"` list the CLIs append to in place. */
  class ChatState {
    var messages: seq<Message>

    constructor (initial: seq<Message>)
      ensures messages == initial
    {
      messages := initial;
    }
  }

  /** `SessionConfig`: the declared fields with their defaults, plus the two
      attributes that code elsewhere assigns onto the instance: `debug`
      (set by `stream_once`) and `depth_search` (never declared, so `None`
      here means "attribute not set"). */
  class SessionConfig {
    var threadId: string
    var model: string
    var temp: real
    var langPref: string
    var depthSearch: Option<bool>
    var debug: bool

    constructor ()
      ensures threadId == "user_session" && model == "qwen2.5:7b" && temp == 0.0
      ensures langPref == "auto" && depthSearch == None && !debug
    {
      threadId := "user_session";
      model := "qwen2.5:7b";
      temp := 0.0;
      langPref := "auto";
      depthSearch := None;
      debug := false;
    }
  }

  /** The module-level `debug_state = {"enabled": False}`. */
  class DebugState {
    var enabled: bool

    constructor ()
      ensures !enabled
    {
      enabled := false;
    }
  }
}
