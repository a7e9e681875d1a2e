/**
 * The measure-and-alert step of the monitor and its timeout option
 * (main.go: testNow and setTimeout).
 *
 * The poller, the HTTP listener, signal handling and shutdown are not part
 * of this model; a measurement cycle is modelled as one sequential call
 * whose probe results and clock reading are parameters.
 */
module Monitor {
  import opened Wrappers
  import opened Fmt
  import opened Configuration
  import opened Speedtest
  import opened Slack

  const DefaultTimeout: int := 10

  const DownloadAlertFormat: string := "Current Download speed (%s) lower than %v"
  const UploadAlertFormat: string := "Current Upload speed (%s) lower than %v"

  /** The command-line timeout option and the global it sets. */
  class Options {
    const timeoutOpt: int  // --timeout; 0 when the flag is absent
    var timeout: int

    constructor (timeoutOpt: int)
      ensures this.timeoutOpt == timeoutOpt && timeout == DefaultTimeout
    {
      this.timeoutOpt := timeoutOpt;
      timeout := DefaultTimeout;
    }

    /** A non-zero option overrides the timeout; zero leaves it alone. */
    method SetTimeout()
      modifies this`timeout
      ensures timeout == if timeoutOpt != 0 then timeoutOpt else old(timeout)
    {
      if timeoutOpt != 0 {
        timeout := timeoutOpt;
      }
    }
  }

  function DownloadAlertText(shown: Text, threshold: real): Text
  {
    Sprintf(DownloadAlertFormat, [Nested(shown), Float(threshold)])
  }

  function UploadAlertText(shown: Text, threshold: real): Text
  {
    Sprintf(UploadAlertFormat, [Nested(shown), Float(threshold)])
  }

  predicate IsDownloadAlert(a: Attachment)
  {
    a.text.Sprintf? && a.text.format == DownloadAlertFormat
  }

  predicate IsUploadAlert(a: Attachment)
  {
    a.text.Sprintf? && a.text.format == UploadAlertFormat
  }

  /** The alerts one evaluation of the published speeds adds to the outbox:
      a download alert, then an upload alert, each only when that speed is
      strictly below its threshold. */
  function ThresholdAlerts(config: Configuration, appName: string,
                           down: real, downText: Text, up: real, upText: Text): (alerts: seq<Attachment>)
    ensures |alerts| == (if down < config.downloadThreshold then 1 else 0)
                       + (if up < config.uploadThreshold then 1 else 0)
    ensures forall a :: a in alerts ==> a.color == AlertColor && a.authorName == appName
  {
    (if down < config.downloadThreshold
     then [NewAttachment(DownloadAlertText(downText, config.downloadThreshold), appName, true)]
     else [])
    + (if up < config.uploadThreshold
       then [NewAttachment(UploadAlertText(upText, config.uploadThreshold), appName, true)]
       else [])
  }

  /** A download alert is raised iff the download speed is strictly below
      its threshold, an upload alert iff the upload speed is strictly below
      its own; the download alert comes first, and each carries the rendered
      speed and the threshold it missed. */
  lemma AlertIffBelowThreshold(config: Configuration, appName: string,
                               down: real, downText: Text, up: real, upText: Text)
    ensures var alerts := ThresholdAlerts(config, appName, down, downText, up, upText);
      && ((exists i :: 0 <= i < |alerts| && IsDownloadAlert(alerts[i])) <==> down < config.downloadThreshold)
      && ((exists i :: 0 <= i < |alerts| && IsUploadAlert(alerts[i])) <==> up < config.uploadThreshold)
      && (down < config.downloadThreshold ==>
            alerts[0].text == Sprintf(DownloadAlertFormat, [Nested(downText), Float(config.downloadThreshold)]))
      && (up < config.uploadThreshold ==>
            alerts[|alerts| - 1].text == Sprintf(UploadAlertFormat, [Nested(upText), Float(config.uploadThreshold)]))
  {
    var alerts := ThresholdAlerts(config, appName, down, downText, up, upText);
    assert DownloadAlertFormat[8] != UploadAlertFormat[8];
    if down < config.downloadThreshold {
      assert IsDownloadAlert(alerts[0]);
    }
    if up < config.uploadThreshold {
      assert IsUploadAlert(alerts[|alerts| - 1]);
    }
  }

  /** With floors of 50 and 10 Mbit/s: 40 down and 20 up raises only the
      download alert, 60 down and 5 up only the upload alert, 60 and 20
      nothing, and a speed equal to its floor raises nothing. */
  lemma ThresholdExamples(config: Configuration, appName: string, downText: Text, upText: Text)
    requires config.downloadThreshold == 50.0 && config.uploadThreshold == 10.0
    ensures var a := ThresholdAlerts(config, appName, 40.0, downText, 20.0, upText);
      |a| == 1 && IsDownloadAlert(a[0])
    ensures var a := ThresholdAlerts(config, appName, 60.0, downText, 5.0, upText);
      |a| == 1 && IsUploadAlert(a[0])
    ensures ThresholdAlerts(config, appName, 60.0, downText, 20.0, upText) == []
    ensures ThresholdAlerts(config, appName, 50.0, downText, 10.0, upText) == []
  {
  }

  /** One measurement cycle followed by the threshold check: measure and
      publish, queue an alert per breached threshold after whatever is
      already waiting, and send the outbox if it is not empty. Nothing is
      queued or sent when no Slack endpoint is configured. `sent` is the
      request handed to the webhook, if any. */
  method TestNow(targets: array<Server>, probes: seq<Measurement>, sc: SlackClient?,
                 config: Configuration, latestResults: LatestResult, now: string)
    returns (sent: Option<Post>)
    requires targets.Length > 0 && |probes| == targets.Length
    requires config.slackEndpoint != "" ==> sc != null
    modifies targets, latestResults, sc
    ensures forall i :: 0 <= i < targets.Length ==>
      SameTarget(targets[i], old(targets[i])) && targets[i].dlSpeed == probes[i].download
      && targets[i].ulSpeed == probes[i].upload && targets[i].ping == probes[i].latency
    ensures Published(latestResults, targets[..], now)
    ensures sc != null ==> sc.endpoint == old(sc.endpoint) && sc.appName == old(sc.appName)
    ensures config.slackEndpoint == "" ==>
      sent == None && (sc != null ==> sc.messages == old(sc.messages))
    ensures config.slackEndpoint != "" ==>
      var outbox := old(sc.messages)
        + ThresholdAlerts(config, sc.appName, latestResults.downSpeed, latestResults.downSpeedStr,
                          latestResults.upSpeed, latestResults.upSpeedStr);
      && sc.messages == []
      && sent == if outbox == [] then None
                 else Some(Post(sc.endpoint, JsonContentType,
                                SlackMessage(Sprintf("Message from %s", [Str(sc.appName)]), outbox)))
  {
    var _ := Speedtest.TestNow(targets, probes, latestResults, now);
    sent := None;
    if config.slackEndpoint != "" {
      ghost var alerts := ThresholdAlerts(config, sc.appName, latestResults.downSpeed,
        latestResults.downSpeedStr, latestResults.upSpeed, latestResults.upSpeedStr);
      ghost var outbox := sc.messages + alerts;
      if latestResults.downSpeed < config.downloadThreshold {
        sc.AddAlert(DownloadAlertText(latestResults.downSpeedStr, config.downloadThreshold));
      }
      if latestResults.upSpeed < config.uploadThreshold {
        sc.AddAlert(UploadAlertText(latestResults.upSpeedStr, config.uploadThreshold));
      }
      assert sc.messages == outbox;
      if |sc.messages| > 0 {
        var request := sc.SendMessages();
        sent := Some(request);
      }
    }
  }
}
