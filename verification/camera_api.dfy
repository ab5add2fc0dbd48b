/**
  The camera endpoints of the rover server (server/src/server.js:199-308): the
  shared-secret gate, the MediaMTX configuration each request builds, and the
  reply. The PATCH to MediaMTX is not made here; whether it succeeded is a
  parameter, and the outcome records the configuration that was sent.
*/
module CameraApi {
  import opened Wrappers

  const SECRET := "rover-alpha-99"

  /** An HTTP status with the text of its body (`message`, `error`, or the plain body). */
  datatype Reply = Reply(status: int, message: string)

  const UNAUTHORIZED := Reply(401, "Unauthorized")

  /** A configuration patch for the `cam` path of MediaMTX. */
  datatype Config =
    | NightVision(fps: int, shutter: int, gain: real, exposure: string,
                  brightness: real, contrast: real, saturation: real)
    | Focus(afMode: string, lensPosition: Option<real>)
    | FrameSize(width: int, height: int)
    /** The `settings` object of the request, forwarded untouched. */
    | Passthrough(settings: string)

  /** The patch sent (`None`: none was attempted) and the reply. */
  datatype Outcome = Outcome(patch: Option<Config>, reply: Reply)

  /** `secret !== "rover-alpha-99"` fails for a missing secret and for every other string. */
  predicate Authorized(secret: Option<string>) {
    secret == Some(SECRET)
  }

  /** A request field interpolated into a template string; a missing one prints `undefined`. */
  function FieldText(field: Option<string>): string {
    match field
    case None => "undefined"
    case Some(s) => s
  }

  /** The long-exposure low-light profile, or the normal 60 fps one. */
  function NightVisionConfig(active: bool): (c: Config)
    ensures c.NightVision?
    ensures active <==> c.exposure == "long"
    ensures active <==> c.shutter != 0
    ensures active <==> c.fps < 60
    ensures !active ==> c.gain == 0.0 && c.contrast == 1.0 && c.saturation == 1.0
  {
    if active then NightVision(30, 66000, 16.0, "long", 0.15, 1.2, 0.5)
    else NightVision(60, 0, 0.0, "normal", 0.0, 1.0, 1.0)
  }

  /** `POST /api/camera/nightvision`. */
  function NightVisionRequest(active: bool, secret: Option<string>, patchOk: bool): (o: Outcome)
    ensures !Authorized(secret) ==> o == Outcome(None, UNAUTHORIZED)
    ensures Authorized(secret) ==> o.patch == Some(NightVisionConfig(active))
    ensures Authorized(secret) ==> (o.reply.status == 200 <==> patchOk)
    ensures Authorized(secret) && !patchOk ==> o.reply.status == 500
  {
    if !Authorized(secret) then Outcome(None, UNAUTHORIZED)
    else
      var config := NightVisionConfig(active);
      if patchOk then Outcome(Some(config), Reply(200, "Night Vision " + (if active then "Enabled" else "Disabled")))
      else Outcome(Some(config), Reply(500, "Failed to update camera settings"))
  }

  /** Manual lens position for a non-`auto` mode. */
  function LensPosition(mode: Option<string>): real {
    if mode == Some("near") then 10.0 else if mode == Some("normal") then 5.0 else 0.0
  }

  function FocusConfig(mode: Option<string>): (c: Config)
    ensures c.Focus?
    ensures c.afMode == "continuous" <==> mode == Some("auto")
    ensures c.lensPosition.None? <==> mode == Some("auto")
    ensures c.lensPosition.Some? ==> 0.0 <= c.lensPosition.value <= 10.0
  {
    if mode == Some("auto") then Focus("continuous", None) else Focus("manual", Some(LensPosition(mode)))
  }

  /** `POST /api/camera/focus`. */
  function FocusRequest(mode: Option<string>, secret: Option<string>, patchOk: bool): (o: Outcome)
    ensures !Authorized(secret) ==> o == Outcome(None, UNAUTHORIZED)
    ensures Authorized(secret) ==> o.patch == Some(FocusConfig(mode))
    ensures Authorized(secret) ==> (o.reply.status == 200 <==> patchOk)
    ensures Authorized(secret) && patchOk ==> o.reply.message == "Focus set to " + FieldText(mode)
  {
    if !Authorized(secret) then Outcome(None, UNAUTHORIZED)
    else if patchOk then Outcome(Some(FocusConfig(mode)), Reply(200, "Focus set to " + FieldText(mode)))
    else Outcome(Some(FocusConfig(mode)), Reply(500, "Failed to apply focus"))
  }

  /** `resMap[mode]`: width, height and frame rate of a known mode. */
  function ResolutionPreset(mode: Option<string>): Option<(int, int, int)> {
    match mode
    case Some("240p") => Some((320, 240, 60))
    case Some("480p") => Some((640, 480, 60))
    case Some("720p") => Some((1280, 720, 60))
    case Some("1080p") => Some((1920, 1080, 15))
    case _ => None
  }

  /** Width and height of the preset, 720p for an unknown mode; the preset's frame rate is never sent. */
  function ResolutionConfig(mode: Option<string>): (c: Config)
    ensures c.FrameSize?
    ensures ResolutionPreset(mode).Some? ==> c.width == ResolutionPreset(mode).value.0 && c.height == ResolutionPreset(mode).value.1
    ensures ResolutionPreset(mode).None? ==> c == FrameSize(1280, 720)
    ensures c.width * 3 == c.height * 4 || c.width * 9 == c.height * 16
  {
    var target := match ResolutionPreset(mode)
      case Some(p) => p
      case None => (1280, 720, 60);
    FrameSize(target.0, target.1)
  }

  /** `POST /api/camera/resolution`. */
  function ResolutionRequest(mode: Option<string>, secret: Option<string>, patchOk: bool): (o: Outcome)
    ensures !Authorized(secret) ==> o == Outcome(None, UNAUTHORIZED)
    ensures Authorized(secret) ==> o.patch == Some(ResolutionConfig(mode))
    ensures Authorized(secret) ==> (o.reply.status == 200 <==> patchOk)
    ensures Authorized(secret) && patchOk ==> o.reply.message == "Resolution changed to " + FieldText(mode)
  {
    if !Authorized(secret) then Outcome(None, UNAUTHORIZED)
    else if patchOk then Outcome(Some(ResolutionConfig(mode)), Reply(200, "Resolution changed to " + FieldText(mode)))
    else Outcome(Some(ResolutionConfig(mode)), Reply(500, "Failed to apply resolution"))
  }

  /** `POST /api/camera/settings`: the secret is read from the body but never compared. */
  function SettingsRequest(settings: string, secret: Option<string>, patchOk: bool): (o: Outcome)
    ensures o.patch == Some(Passthrough(settings))
    ensures o.reply.status == 200 <==> patchOk
  {
    if patchOk then Outcome(Some(Passthrough(settings)), Reply(200, "Settings applied"))
    else Outcome(Some(Passthrough(settings)), Reply(500, "API Error"))
  }

  /** Only the exact secret opens the three gated endpoints; a wrong one never reaches MediaMTX. */
  lemma SecretGatesCamera(secret: Option<string>, active: bool, mode: Option<string>, patchOk: bool)
    ensures NightVisionRequest(active, secret, patchOk).patch.Some? <==> Authorized(secret)
    ensures FocusRequest(mode, secret, patchOk).patch.Some? <==> Authorized(secret)
    ensures ResolutionRequest(mode, secret, patchOk).patch.Some? <==> Authorized(secret)
    ensures !Authorized(secret) ==>
      NightVisionRequest(active, secret, patchOk).reply.status == 401
      && FocusRequest(mode, secret, patchOk).reply.status == 401
      && ResolutionRequest(mode, secret, patchOk).reply.status == 401
  {
  }

  /** `/settings` behaves the same whatever secret is sent, or none at all. */
  lemma SettingsIgnoresSecret(settings: string, s1: Option<string>, s2: Option<string>, patchOk: bool)
    ensures SettingsRequest(settings, s1, patchOk) == SettingsRequest(settings, s2, patchOk)
  {
  }

  /**
    `auto` hands focus to the camera; every other mode is manual, with lens
    position 10 for `near`, 5 for `normal` and 0 otherwise (`far`, unknown or missing).
  */
  lemma FocusModes(mode: Option<string>)
    ensures FocusConfig(mode).afMode == "continuous" <==> mode == Some("auto")
    ensures FocusConfig(mode).lensPosition.None? <==> mode == Some("auto")
    ensures mode == Some("near") ==> FocusConfig(mode).lensPosition == Some(10.0)
    ensures mode == Some("normal") ==> FocusConfig(mode).lensPosition == Some(5.0)
    ensures mode != Some("auto") && mode != Some("near") && mode != Some("normal") ==>
      FocusConfig(mode).lensPosition == Some(0.0)
  {
  }

  /**
    A known mode sends its own size; anything else falls back to 1280x720,
    while the reply still names the mode that was asked for.
  */
  lemma ResolutionFallback(mode: Option<string>, secret: Option<string>)
    ensures ResolutionConfig(Some("240p")) == FrameSize(320, 240)
    ensures ResolutionConfig(Some("480p")) == FrameSize(640, 480)
    ensures ResolutionConfig(Some("1080p")) == FrameSize(1920, 1080)
    ensures ResolutionPreset(mode).None? ==> ResolutionConfig(mode) == FrameSize(1280, 720)
    ensures Authorized(secret) ==>
      ResolutionRequest(mode, secret, true).reply.message == "Resolution changed to " + FieldText(mode)
  {
  }
}
