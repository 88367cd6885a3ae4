/**
  The status-label table of the handler (api/main.go:24-30): the provider's
  instance states that have a display label, and the lookup the status query
  performs on it (api/main.go:40).
 */
module StatusLabel {

  /** The provider states the table knows, with their display labels. */
  const StatusName: map<string, string> := map[
    "SHUTOFF" := "シャットダウンしてるよ",
    "ACTIVE" := "起動してるよ",
    "RESIZE" := "リサイズ中",
    "REBOOT" := "再起動中",
    "VERIFY_RESIZE" := "リサイズ承認待ち"
  ]

  /**
    The label shown for a provider status. A Go map read of a missing key
    yields the zero value, so a state outside the table shows as the empty
    string; the lookup never fails.
   */
  function Label(status: string): (shown: string)
    ensures shown == "" <==> status !in StatusName
    ensures shown != "" ==> shown in StatusName.Values
  {
    if status in StatusName then StatusName[status] else ""
  }

  /** Each of the five known states gets its configured label. */
  lemma KnownLabels()
    ensures Label("SHUTOFF") == "シャットダウンしてるよ"
    ensures Label("ACTIVE") == "起動してるよ"
    ensures Label("RESIZE") == "リサイズ中"
    ensures Label("REBOOT") == "再起動中"
    ensures Label("VERIFY_RESIZE") == "リサイズ承認待ち"
  {
  }

  /** The table is closed: exactly the five states above have a label. */
  lemma KnownStates(status: string)
    ensures Label(status) != "" <==>
      status == "SHUTOFF" || status == "ACTIVE" || status == "RESIZE" ||
      status == "REBOOT" || status == "VERIFY_RESIZE"
  {
  }

  /**
    Lookup is exact, with no case folding or trimming: a state holding any
    lower-case letter or any space falls back to the empty label.
   */
  lemma UnknownStatesUnlabelled(status: string, i: nat)
    requires i < |status| && ('a' <= status[i] <= 'z' || status[i] == ' ')
    ensures Label(status) == ""
  {
  }
}
