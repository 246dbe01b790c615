/**
 * The boot-payload assembler (`build_userdata`): the ordered (content, filename, subtype)
 * attachments of the multi-part user data given to a new server, or the user data verbatim in
 * the `RAW` format.
 */
module Userdata {
  import opened Wrappers
  import Json
  import Text

  const RAW := "RAW"
  const CFNTOOLS := "chef_validator_CFNTOOLS"
  const SOFTWARE_CONFIG := "SOFTWARE_CONFIG"

  /** One attachment of the payload; `None` stands for Python's `None`. */
  datatype Attachment = Attachment(content: Option<string>, filename: Option<string>, subtype: Option<string>)

  /** A part of user data that parses as a multi-part message: payload, filename, content subtype. */
  datatype Part = Part(payload: string, filename: Option<string>, subtype: string)

  /** The result: the user data verbatim, or the attachments of a multi-part message. */
  datatype Userdata = Verbatim(userdata: Option<string>) | Multipart(attachments: seq<Attachment>)

  /**
   * The arguments of one call: metadata, user data, the user to create and the payload format,
   * with the same defaults as the keyword arguments (no user data, no user, `CFNTOOLS`).
   */
  datatype Request = Request(
    metadata: Option<Json.Value>,
    userdata: Option<string> := None,
    instanceUser: Option<string> := None,
    format: string := CFNTOOLS)

  /**
   * The in-instance files shipped with the service. The `config` and `boothook` templates are
   * given as their text split at each occurrence of the `$add_custom_user` placeholder.
   */
  datatype CloudinitFiles = CloudinitFiles(
    config: seq<string>,
    boothook: seq<string>,
    partHandler: string,
    logUserdata: string)

  /**
   * Configured service endpoints and connection flags; the hosts are the host names already
   * extracted from the two URLs.
   */
  datatype Settings = Settings(
    watchServerUrl: string,
    metadataServerUrl: string,
    watchServerHost: string,
    metadataServerHost: string,
    connectionIsSecure: string,
    validateCertificates: string)

  /**
   * What one call relies on besides its arguments: the files, the settings, the JSON encoder
   * and the multi-part parser (`None` when the text does not parse as a multi-part message).
   */
  datatype Context = Context(
    files: CloudinitFiles,
    settings: Settings,
    dumps: Json.Value -> string,
    parse: string -> Option<seq<Part>>)

  /** `if instance_user:` */
  predicate HasUser(instanceUser: Option<string>) {
    instanceUser.Some? && instanceUser.value != ""
  }

  /** The cloud-config stanza creating the instance user. */
  function ConfigUserStanza(user: string): string {
    "user: " + user
  }

  /** The boot-hook stanza adding the user and granting it password-less sudo. */
  function BoothookUserStanza(user: string): string {
    "useradd -m " + user + "\necho -e '" + user + "\\tALL=(ALL)\\tNOPASSWD: ALL' >> /etc/sudoers\n"
  }

  /** `string.Template(text).safe_substitute(add_custom_user=value)` */
  function Render(template: seq<string>, value: string): string {
    Text.JoinWith(value, template)
  }

  /** The three attachments that lead every non-`RAW` payload. */
  function FixedAttachments(files: CloudinitFiles, instanceUser: Option<string>): seq<Attachment> {
    var configUser := if HasUser(instanceUser) then ConfigUserStanza(instanceUser.value) else "";
    var boothookUser := if HasUser(instanceUser) then BoothookUserStanza(instanceUser.value) else "";
    [ Attachment(Some(Render(files.config, configUser)), Some("cloud-config"), None),
      Attachment(Some(Render(files.boothook, boothookUser)), Some("boothook.sh"), Some("cloud-boothook")),
      Attachment(Some(files.partHandler), Some("part-handler.py"), None) ]
  }

  function PartAttachment(p: Part): Attachment {
    Attachment(Some(p.payload), p.filename, Some(p.subtype))
  }

  /** The user data of a `SOFTWARE_CONFIG` payload, parsed as multi-part, or `None`. */
  function ParsedUserdata(req: Request, ctx: Context): Option<seq<Part>> {
    if req.userdata.Some? then ctx.parse(req.userdata.value) else None
  }

  /**
   * The user data of a `SOFTWARE_CONFIG` payload: each part of a multi-part message as its own
   * attachment, or otherwise the whole text as one shell script.
   */
  function SoftwareConfigAttachments(req: Request, ctx: Context): seq<Attachment> {
    match ParsedUserdata(req, ctx)
    case Some(parts) => seq(|parts|, i requires 0 <= i < |parts| => PartAttachment(parts[i]))
    case None => [Attachment(req.userdata, Some("userdata"), Some("x-shellscript"))]
  }

  /** `if metadata:` */
  predicate HasMetadata(req: Request) {
    req.metadata.Some? && Json.Truthy(req.metadata.value)
  }

  function MetadataAttachments(req: Request, ctx: Context): seq<Attachment> {
    if HasMetadata(req) then [Attachment(Some(ctx.dumps(req.metadata.value)), Some("cfn-init-data"), Some("x-cfninitdata"))]
    else []
  }

  /** The boto configuration telling in-instance tools where the two services live. */
  function BotoConfig(settings: Settings): string {
    Text.JoinWith("\n", [
      "[Boto]",
      "debug = 0",
      "is_secure = " + settings.connectionIsSecure,
      "https_validate_certificates = " + settings.validateCertificates,
      "cfn_region_name = chef_validator",
      "cfn_region_endpoint = " + settings.metadataServerHost,
      "cloudwatch_region_name = chef_validator",
      "cloudwatch_region_endpoint = " + settings.watchServerHost])
  }

  function WatchServerAttachment(settings: Settings): Attachment {
    Attachment(Some(settings.watchServerUrl), Some("cfn-watch-server"), Some("x-cfninitdata"))
  }

  /** The attachments that end a `chef_validator_CFNTOOLS` payload. */
  function CfnToolsTrailer(settings: Settings): seq<Attachment> {
    [ Attachment(Some(settings.metadataServerUrl), Some("cfn-metadata-server"), Some("x-cfninitdata")),
      Attachment(Some(BotoConfig(settings)), Some("cfn-boto-cfg"), Some("x-cfninitdata")) ]
  }

  /** The attachments of a non-`RAW` payload, in order. */
  function Attachments(req: Request, ctx: Context): seq<Attachment> {
    var isCfn := req.format == CFNTOOLS;
    FixedAttachments(ctx.files, req.instanceUser)
      + (if isCfn then [Attachment(req.userdata, Some("cfn-userdata"), Some("x-cfninitdata"))]
         else if req.format == SOFTWARE_CONFIG then SoftwareConfigAttachments(req, ctx)
         else [])
      + (if isCfn then [Attachment(Some(ctx.files.logUserdata), Some("loguserdata.py"), Some("x-shellscript"))] else [])
      + MetadataAttachments(req, ctx)
      + [WatchServerAttachment(ctx.settings)]
      + (if isCfn then CfnToolsTrailer(ctx.settings) else [])
  }

  function Filenames(atts: seq<Attachment>): (r: seq<Option<string>>)
    ensures |r| == |atts|
    ensures forall i :: 0 <= i < |atts| ==> r[i] == atts[i].filename
  {
    seq(|atts|, i requires 0 <= i < |atts| => atts[i].filename)
  }

  /** Every non-`RAW` payload opens with the cloud config, the boot hook and the part handler. */
  lemma FixedPrefix(req: Request, ctx: Context)
    ensures |Attachments(req, ctx)| >= 3
    ensures Attachments(req, ctx)[..3] == FixedAttachments(ctx.files, req.instanceUser)
    ensures Filenames(Attachments(req, ctx))[..3] == [Some("cloud-config"), Some("boothook.sh"), Some("part-handler.py")]
  {
    var atts := Attachments(req, ctx);
    assert atts[..3] == FixedAttachments(ctx.files, req.instanceUser);
  }

  /**
   * The `chef_validator_CFNTOOLS` layout: the fixed three, the user data, the log script, the
   * metadata only when there is some, then the watch server, the metadata server and the boto
   * configuration.
   */
  lemma CfnToolsLayout(req: Request, ctx: Context)
    requires req.format == CFNTOOLS
    ensures Filenames(Attachments(req, ctx)) ==
      [Some("cloud-config"), Some("boothook.sh"), Some("part-handler.py"), Some("cfn-userdata"), Some("loguserdata.py")]
      + (if HasMetadata(req) then [Some("cfn-init-data")] else [])
      + [Some("cfn-watch-server"), Some("cfn-metadata-server"), Some("cfn-boto-cfg")]
    ensures Attachments(req, ctx)[3].content == req.userdata
    ensures var atts := Attachments(req, ctx);
      atts[|atts| - 3].content == Some(ctx.settings.watchServerUrl)
      && atts[|atts| - 2].content == Some(ctx.settings.metadataServerUrl)
  {
    var atts := Attachments(req, ctx);
    var names := [Some("cloud-config"), Some("boothook.sh"), Some("part-handler.py"), Some("cfn-userdata"), Some("loguserdata.py")]
      + (if HasMetadata(req) then [Some("cfn-init-data")] else [])
      + [Some("cfn-watch-server"), Some("cfn-metadata-server"), Some("cfn-boto-cfg")];
    assert |atts| == |names|;
    forall i | 0 <= i < |atts|
      ensures Filenames(atts)[i] == names[i]
    {
    }
  }

  /**
   * The `SOFTWARE_CONFIG` layout: after the fixed three come the parts of a multi-part user
   * data, one attachment each and in order, or else the whole user data as one shell script;
   * the watch server comes last.
   */
  lemma SoftwareConfigLayout(req: Request, ctx: Context)
    requires req.format == SOFTWARE_CONFIG
    ensures var atts := Attachments(req, ctx);
      match ParsedUserdata(req, ctx)
      case Some(parts) =>
        && |atts| == 3 + |parts| + |MetadataAttachments(req, ctx)| + 1
        && forall i :: 0 <= i < |parts| ==> atts[3 + i] == PartAttachment(parts[i])
      case None =>
        && |atts| == 3 + 1 + |MetadataAttachments(req, ctx)| + 1
        && atts[3] == Attachment(req.userdata, Some("userdata"), Some("x-shellscript"))
    ensures var atts := Attachments(req, ctx);
      atts[|atts| - 1] == WatchServerAttachment(ctx.settings)
  {
  }

  /** Any other non-`RAW` format holds only the fixed three, the metadata and the watch server. */
  lemma OtherFormatLayout(req: Request, ctx: Context)
    requires req.format !in {RAW, CFNTOOLS, SOFTWARE_CONFIG}
    ensures Attachments(req, ctx) ==
      FixedAttachments(ctx.files, req.instanceUser) + MetadataAttachments(req, ctx) + [WatchServerAttachment(ctx.settings)]
  {
  }

  /**
   * With an instance user and templates that use the placeholder, both scripts carry that
   * user's creation stanza.
   */
  lemma UserStanzaInScripts(files: CloudinitFiles, user: string)
    requires user != ""
    requires |files.config| >= 2 && |files.boothook| >= 2
    ensures var fixed := FixedAttachments(files, Some(user));
      && Text.Contains(fixed[0].content.value, "user: " + user)
      && Text.Contains(fixed[1].content.value, BoothookUserStanza(user))
      && Text.Contains(fixed[1].content.value, "useradd -m " + user)
  {
    Text.JoinContainsSeparator(ConfigUserStanza(user), files.config);
    var stanza := BoothookUserStanza(user);
    Text.JoinContainsSeparator(stanza, files.boothook);
    Text.ContainsWithin(Render(files.boothook, stanza), stanza, "useradd -m " + user);
  }

  /** Without an instance user the placeholder is simply removed from both templates. */
  lemma NoUserNoStanza(files: CloudinitFiles, instanceUser: Option<string>)
    requires !HasUser(instanceUser)
    ensures var fixed := FixedAttachments(files, instanceUser);
      fixed[0].content == Some(Render(files.config, "")) && fixed[1].content == Some(Render(files.boothook, ""))
  {
  }

  /**
   * `build_userdata`: in the `RAW` format the user data verbatim; otherwise the attachments,
   * grown one append at a time.
   */
  method BuildUserdata(req: Request, ctx: Context) returns (r: Userdata)
    ensures req.format == RAW ==> r == Verbatim(req.userdata)
    ensures req.format != RAW ==> r == Multipart(Attachments(req, ctx))
  {
    if req.format == RAW {
      return Verbatim(req.userdata);
    }
    var isCfn := req.format == CFNTOOLS;
    var isSoftwareConfig := req.format == SOFTWARE_CONFIG;
    var attachments := FixedAttachments(ctx.files, req.instanceUser);
    if isCfn {
      attachments := attachments + [Attachment(req.userdata, Some("cfn-userdata"), Some("x-cfninitdata"))];
    } else if isSoftwareConfig {
      var parsed := if req.userdata.Some? then ctx.parse(req.userdata.value) else None;
      if parsed.Some? {
        var parts := parsed.value;
        ghost var before := attachments;
        var i := 0;
        while i < |parts|
          invariant 0 <= i <= |parts|
          invariant |attachments| == |before| + i
          invariant attachments[..|before|] == before
          invariant forall j :: 0 <= j < i ==> attachments[|before| + j] == PartAttachment(parts[j])
        {
          attachments := attachments + [PartAttachment(parts[i])];
          i := i + 1;
        }
        assert attachments == before + SoftwareConfigAttachments(req, ctx);
      } else {
        attachments := attachments + [Attachment(req.userdata, Some("userdata"), Some("x-shellscript"))];
      }
    }
    if isCfn {
      attachments := attachments + [Attachment(Some(ctx.files.logUserdata), Some("loguserdata.py"), Some("x-shellscript"))];
    }
    if HasMetadata(req) {
      attachments := attachments + [Attachment(Some(ctx.dumps(req.metadata.value)), Some("cfn-init-data"), Some("x-cfninitdata"))];
    }
    attachments := attachments + [WatchServerAttachment(ctx.settings)];
    if isCfn {
      attachments := attachments + CfnToolsTrailer(ctx.settings);
    }
    r := Multipart(attachments);
  }
}
