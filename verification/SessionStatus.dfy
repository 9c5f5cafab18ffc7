/** The status column of the sessions table. */
module SessionStatus {
  /** INSERT OR IGNORE: a session that exists stays as it is. */
  function Created(sessions: map<string, string>, id: string): map<string, string> {
    if id in sessions then sessions else sessions[id := "running"]
  }

  /** An update of a session that does not exist changes nothing. */
  function SetStatus(sessions: map<string, string>, id: string, status: string): map<string, string> {
    if id in sessions then sessions[id := status] else sessions
  }
}
