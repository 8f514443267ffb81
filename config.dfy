/**
 * Process-wide state: the settings changed by the global `setOptions`, the
 * message quota (`maxMessages`) and the entry counter (`entryId`), which the
 * appenders update as they go.
 */
module Config {
  import opened Base
  import opened Options

  /** Host hooks (pre-send callback, serializer) are kept as opaque tokens. */
  datatype Hook = Hook(id: nat)

  datatype GlobalSettings = GlobalSettings(
    enabled: Option<bool>,
    maxMessages: Option<int>,
    defaultAjaxUrl: Option<string>,
    clientIP: Option<string>,
    requestId: Option<string>,
    defaultBeforeSend: Option<Hook>,
    serialize: Option<Hook>)

  datatype GlobalOptions = GlobalOptions(
    enabled: Patch<bool>,
    maxMessages: Patch<int>,
    defaultAjaxUrl: Patch<string>,
    clientIP: Patch<string>,
    requestId: Patch<string>,
    defaultBeforeSend: Patch<Hook>,
    serialize: Patch<Hook>)

  const NoGlobalOptions := GlobalOptions(Absent, Absent, Absent, Absent, Absent, Absent, Absent)

  /** The settings at start-up: everything undefined except the request id, which is empty. */
  const InitialSettings := GlobalSettings(None, None, None, None, Some(""), None, None)

  /** The global setOptions: the seven settings patched one by one. */
  function ApplyGlobalOptions(s: GlobalSettings, o: GlobalOptions): (r: GlobalSettings)
    ensures o == NoGlobalOptions ==> r == s
    ensures o.maxMessages.Null? ==> r.maxMessages == None
    ensures o.maxMessages.Absent? ==> r.maxMessages == s.maxMessages
    ensures o.enabled.Value? ==> r.enabled == Some(o.enabled.v)
    ensures Patched(o.enabled, s.enabled, r.enabled) && Patched(o.maxMessages, s.maxMessages, r.maxMessages)
    ensures Patched(o.defaultAjaxUrl, s.defaultAjaxUrl, r.defaultAjaxUrl) && Patched(o.clientIP, s.clientIP, r.clientIP)
    ensures Patched(o.requestId, s.requestId, r.requestId)
    ensures Patched(o.defaultBeforeSend, s.defaultBeforeSend, r.defaultBeforeSend)
    ensures Patched(o.serialize, s.serialize, r.serialize)
  {
    GlobalSettings(
      CopyProperty(o.enabled, s.enabled),
      CopyProperty(o.maxMessages, s.maxMessages),
      CopyProperty(o.defaultAjaxUrl, s.defaultAjaxUrl),
      CopyProperty(o.clientIP, s.clientIP),
      CopyProperty(o.requestId, s.requestId),
      CopyProperty(o.defaultBeforeSend, s.defaultBeforeSend),
      CopyProperty(o.serialize, s.serialize))
  }

  class Globals {
    var enabled: Option<bool>
    var maxMessages: Option<int>
    var defaultAjaxUrl: Option<string>
    var clientIP: Option<string>
    var requestId: Option<string>
    var defaultBeforeSend: Option<Hook>
    var serialize: Option<Hook>
    /** Number of log items created so far; each new item takes the next value. */
    var entryId: int

    function Settings(): GlobalSettings
      reads this
    {
      GlobalSettings(enabled, maxMessages, defaultAjaxUrl, clientIP, requestId, defaultBeforeSend, serialize)
    }

    constructor ()
      ensures Settings() == InitialSettings && entryId == 0
    {
      enabled, maxMessages, defaultAjaxUrl, clientIP := None, None, None, None;
      requestId, defaultBeforeSend, serialize := Some(""), None, None;
      entryId := 0;
    }

    method SetOptions(o: GlobalOptions)
      modifies this
      ensures Settings() == ApplyGlobalOptions(old(Settings()), o)
      ensures entryId == old(entryId)
    {
      enabled := CopyProperty(o.enabled, enabled);
      maxMessages := CopyProperty(o.maxMessages, maxMessages);
      defaultAjaxUrl := CopyProperty(o.defaultAjaxUrl, defaultAjaxUrl);
      clientIP := CopyProperty(o.clientIP, clientIP);
      requestId := CopyProperty(o.requestId, requestId);
      defaultBeforeSend := CopyProperty(o.defaultBeforeSend, defaultBeforeSend);
      serialize := CopyProperty(o.serialize, serialize);
    }
  }
}
