/** Request validation, and what it makes true of every record a run ever stores. */
module Validation {
  import Decimal
  import opened Domain
  import opened Protocol
  import opened Safety

  // ---------- requests ----------

  datatype CreateStreamRequest = CreateStreamRequest(
    name: string,
    description: string,
    join: JoinInfo,
    launchMode: string,
    preferredIP: string,
    preferredPort: int,
    hostName: string,
    hostAvatarId: string)

  datatype PatchStreamRequest = PatchStreamRequest(
    name: Option<string>,
    description: Option<string>,
    join: Option<JoinInfo>,
    host: Option<HostPatch>)

  /** The keys of the error map: name, description, join.policy, join.code, host.username, stream.launch,
      stream.ip and stream.port. */
  datatype Field =
    | NameField | DescriptionField | JoinPolicyField | JoinCodeField | HostUsernameField
    | LaunchField | IpField | PortField

  /** Valid, or the fields at fault, or the nil dereference of a host part without a join part. */
  datatype Verdict = Valid | Invalid(fields: set<Field>) | Panic

  // The rules of the validation library: all but Required let an empty value pass.

  predicate Required(v: string) { v != "" }

  predicate Length(v: string, min: nat, max: nat) { v == "" || min <= |v| <= max }

  predicate SixDigits(v: string) { |v| == 6 && forall i :: 0 <= i < 6 ==> Decimal.IsDigit(v[i]) }

  predicate IsEmptyPolicy(p: JoinPolicy) { p == OtherPolicy("") }

  predicate KnownPolicy(p: JoinPolicy) { !p.OtherPolicy? }

  /** What is wrong with a field of a create request. */
  predicate CreateFault(req: CreateStreamRequest, isIP: string -> bool, f: Field) {
    match f
    case NameField => !(5 <= |req.name| <= 32)
    case DescriptionField => |req.description| > 96
    case JoinPolicyField => !KnownPolicy(req.join.policy)
    case JoinCodeField => req.join.policy.ByCode? && !SixDigits(req.join.code)
    case HostUsernameField => !(5 <= |req.hostName| <= 32)
    case LaunchField => req.launchMode != "" && req.launchMode != MODE_STANDALONE && req.launchMode != MODE_DOCKER
    case IpField => req.preferredIP != "" && !isIP(req.preferredIP)
    case PortField => req.preferredPort < 0
  }

  /** What is wrong with a field of a patch that has a join part if it has a host part. */
  predicate PatchFault(req: PatchStreamRequest, f: Field) {
    match f
    case NameField => req.name.Some? && req.name.value != "" && !(5 <= |req.name.value| <= 32)
    case DescriptionField => req.description.Some? && |req.description.value| > 96
    case JoinPolicyField =>
      req.join.Some? && !IsEmptyPolicy(req.join.value.policy) && !KnownPolicy(req.join.value.policy)
    case JoinCodeField => req.join.Some? && req.join.value.policy.ByCode? && !SixDigits(req.join.value.code)
    case HostUsernameField =>
      req.host.Some? && req.join.Some? && req.join.value.code != "" && !(5 <= |req.join.value.code| <= 32)
    case _ => false
  }

  /** The error map has an error, not nil, at the field. */
  predicate Found(errs: map<Field, bool>, f: Field) {
    f in errs && errs[f]
  }

  function FaultyFields(errs: map<Field, bool>): set<Field> {
    set f | f in errs && errs[f]
  }

  function Filtered(errs: map<Field, bool>): Verdict {
    if FaultyFields(errs) == {} then Valid else Invalid(FaultyFields(errs))
  }

  lemma FilteredFinds(errs: map<Field, bool>)
    ensures Filtered(errs).Valid? <==> forall f :: !Found(errs, f)
    ensures Filtered(errs).Invalid? ==> forall f :: f in Filtered(errs).fields <==> Found(errs, f)
  {
    assert forall f :: f in FaultyFields(errs) <==> Found(errs, f);
  }

  predicate Unconditional(f: Field) {
    f.NameField? || f.DescriptionField? || f.JoinPolicyField? || f.HostUsernameField?
  }

  /** The part of the error map that every create request is checked for. */
  method UnconditionalErrors(req: CreateStreamRequest, isIP: string -> bool) returns (errs: map<Field, bool>)
    ensures forall f :: f in errs <==> Unconditional(f)
    ensures forall f <- errs :: errs[f] <==> CreateFault(req, isIP, f)
  {
    errs := map[
      NameField := !Required(req.name) || !Length(req.name, 5, 32),
      DescriptionField := !Length(req.description, 0, 96),
      JoinPolicyField := IsEmptyPolicy(req.join.policy) || !KnownPolicy(req.join.policy),
      HostUsernameField := !Required(req.hostName) || !Length(req.hostName, 5, 32)];
  }

  method ValidateCreate(req: CreateStreamRequest, isIP: string -> bool) returns (verdict: Verdict)
    ensures !verdict.Panic?
    ensures verdict.Valid? <==> forall f :: !CreateFault(req, isIP, f)
    ensures verdict.Invalid? ==> forall f :: f in verdict.fields <==> CreateFault(req, isIP, f)
  {
    var errs := UnconditionalErrors(req, isIP);
    if req.join.policy.ByCode? {
      errs := errs[JoinCodeField := !Required(req.join.code) || !SixDigits(req.join.code)];
    }
    if req.launchMode != "" {
      errs := errs[LaunchField := req.launchMode != MODE_DOCKER && req.launchMode != MODE_STANDALONE];
    }
    if req.preferredIP != "" {
      errs := errs[IpField := !isIP(req.preferredIP)];
    }
    if req.preferredPort != 0 {
      errs := errs[PortField := req.preferredPort < 0];
    }
    forall f ensures Found(errs, f) <==> CreateFault(req, isIP, f) {}
    FilteredFinds(errs);
    return Filtered(errs);
  }

  /** The join part a patch may carry: an empty policy passes, a code is checked only under by_code. */
  predicate JoinPartOk(join: JoinInfo) {
    && (IsEmptyPolicy(join.policy) || KnownPolicy(join.policy))
    && (join.policy.ByCode? ==> SixDigits(join.code))
  }

  method ValidatePatch(req: PatchStreamRequest) returns (verdict: Verdict)
    ensures verdict.Panic? <==> req.host.Some? && req.join.None?
    ensures verdict.Valid? <==> !verdict.Panic? && forall f :: !PatchFault(req, f)
    ensures verdict.Invalid? ==> forall f :: f in verdict.fields <==> PatchFault(req, f)
  {
    var errs: map<Field, bool> := map[];
    if req.name.Some? {
      errs := errs[NameField := !Length(req.name.value, 5, 32)];
    }
    if req.description.Some? {
      errs := errs[DescriptionField := !Length(req.description.value, 0, 96)];
    }
    if req.join.Some? {
      errs := errs[JoinPolicyField := !IsEmptyPolicy(req.join.value.policy) && !KnownPolicy(req.join.value.policy)];
      if req.join.value.policy.ByCode? {
        errs := errs[JoinCodeField := !Required(req.join.value.code) || !SixDigits(req.join.value.code)];
      }
    }
    if req.host.Some? {
      if req.join.None? {
        return Panic;
      }
      errs := errs[HostUsernameField := !Length(req.join.value.code, 5, 32)];
    }
    forall f ensures Found(errs, f) <==> PatchFault(req, f) {}
    FilteredFinds(errs);
    return Filtered(errs);
  }

  // ---------- every stored record ----------

  /** What a stored record keeps when every request was valid. */
  predicate ContentOk(name: string, description: string, join: JoinInfo) {
    && Length(name, 5, 32) && |description| <= 96 && JoinPartOk(join)
  }

  predicate RecordContentOk(info: StreamInfo) { ContentOk(info.name, info.description, info.join) }

  predicate ConfigOk(cfg: StreamConfig) { ContentOk(cfg.name, cfg.description, cfg.join) }

  predicate PatchConfigOk(p: PatchConfig) {
    && (p.name.Some? ==> Length(p.name.value, 5, 32))
    && (p.description.Some? ==> |p.description.value| <= 96)
    && (p.join.Some? ==> JoinPartOk(p.join.value))
  }

  /** The configuration createStream hands to NewStream. */
  function CreateConfig(req: CreateStreamRequest, hostIp: string, subject: string): StreamConfig {
    StreamConfig(req.name, req.description, subject, req.join, req.launchMode, req.hostName, req.hostAvatarId, hostIp)
  }

  /** The configuration patchStream hands to PatchStream: the host part is never forwarded. */
  function PatchedConfig(req: PatchStreamRequest): PatchConfig {
    PatchConfig(req.name, req.description, req.join, None)
  }

  lemma CodeRule(code: string)
    ensures SixDigits(code) <==> |code| == 6 && forall c <- code :: '0' <= c <= '9'
  {
    forall i | 0 <= i < |code| ensures code[i] in code {}
  }

  lemma CreateRules(req: CreateStreamRequest, isIP: string -> bool)
    ensures (forall f :: !CreateFault(req, isIP, f)) <==>
              && 5 <= |req.name| <= 32 && |req.description| <= 96 && 5 <= |req.hostName| <= 32
              && req.join.policy in {Auto, ByCode, HostResolve} && (req.join.policy == ByCode ==> SixDigits(req.join.code))
              && req.launchMode in {"", "standalone_app", "docker_container"}
              && (req.preferredIP == "" || isIP(req.preferredIP)) && req.preferredPort >= 0
    ensures SixDigits(req.join.code) <==> |req.join.code| == 6 && forall c <- req.join.code :: '0' <= c <= '9'
  {
    CodeRule(req.join.code);
    assert (forall f :: !CreateFault(req, isIP, f)) <==>
        && !CreateFault(req, isIP, NameField) && !CreateFault(req, isIP, DescriptionField)
        && !CreateFault(req, isIP, JoinPolicyField) && !CreateFault(req, isIP, JoinCodeField)
        && !CreateFault(req, isIP, HostUsernameField) && !CreateFault(req, isIP, LaunchField)
        && !CreateFault(req, isIP, IpField) && !CreateFault(req, isIP, PortField);
  }

  lemma PatchRules(req: PatchStreamRequest)
    requires req.host.Some? ==> req.join.Some?
    ensures (forall f :: !PatchFault(req, f)) <==>
              && (req.name.Some? ==> req.name.value == "" || 5 <= |req.name.value| <= 32)
              && (req.description.Some? ==> |req.description.value| <= 96)
              && (req.join.Some? ==> JoinPartOk(req.join.value))
              && (req.host.Some? ==> req.join.value.code == "" || 5 <= |req.join.value.code| <= 32)
    ensures req.join.Some? ==>
              var join := req.join.value;
              && (JoinPartOk(join) <==>
                    && join.policy in {Auto, ByCode, HostResolve, OtherPolicy("")}
                    && (join.policy == ByCode ==> |join.code| == 6 && forall c <- join.code :: '0' <= c <= '9'))
  {
    if req.join.Some? { CodeRule(req.join.value.code); }
    assert (forall f :: !PatchFault(req, f)) <==>
        && !PatchFault(req, NameField) && !PatchFault(req, DescriptionField) && !PatchFault(req, JoinPolicyField)
        && !PatchFault(req, JoinCodeField) && !PatchFault(req, HostUsernameField);
  }

  method CreateRequestConfig(req: CreateStreamRequest, isIP: string -> bool, hostIp: string, subject: string)
    returns (cfg: Option<StreamConfig>)
    ensures cfg == if forall f :: !CreateFault(req, isIP, f) then Some(CreateConfig(req, hostIp, subject)) else None
    ensures cfg.Some? <==>
              && 5 <= |req.name| <= 32 && |req.description| <= 96 && 5 <= |req.hostName| <= 32
              && req.join.policy in {Auto, ByCode, HostResolve}
              && (req.join.policy == ByCode ==> |req.join.code| == 6 && forall c <- req.join.code :: '0' <= c <= '9')
              && req.launchMode in {"", "standalone_app", "docker_container"}
              && (req.preferredIP == "" || isIP(req.preferredIP)) && req.preferredPort >= 0
    ensures cfg.Some? ==>
              && ConfigOk(cfg.value) && cfg.value.name == req.name && cfg.value.description == req.description
              && cfg.value.join == req.join && cfg.value.launchMode == req.launchMode && cfg.value.subject == subject
              && cfg.value.hostName == req.hostName && cfg.value.hostAvatarId == req.hostAvatarId && cfg.value.hostIp == hostIp
  {
    var verdict := ValidateCreate(req, isIP);
    CreateRules(req, isIP);
    cfg := if verdict.Valid? then Some(CreateConfig(req, hostIp, subject)) else None;
  }

  method PatchRequestConfig(req: PatchStreamRequest) returns (cfg: Option<PatchConfig>)
    ensures cfg == if (req.host.Some? ==> req.join.Some?) && forall f :: !PatchFault(req, f)
                   then Some(PatchedConfig(req)) else None
    ensures cfg.Some? <==>
              && (req.name.Some? ==> req.name.value == "" || 5 <= |req.name.value| <= 32)
              && (req.description.Some? ==> |req.description.value| <= 96)
              && (req.join.Some? ==>
                    && req.join.value.policy in {Auto, ByCode, HostResolve, OtherPolicy("")}
                    && (req.join.value.policy == ByCode ==>
                          |req.join.value.code| == 6 && forall c <- req.join.value.code :: '0' <= c <= '9'))
              && (req.host.Some? ==>
                    req.join.Some? && (req.join.value.code == "" || 5 <= |req.join.value.code| <= 32))
    ensures cfg.Some? ==>
              && PatchConfigOk(cfg.value) && cfg.value.name == req.name && cfg.value.description == req.description
              && cfg.value.join == req.join && cfg.value.host == None
  {
    var verdict := ValidatePatch(req);
    if req.host.Some? ==> req.join.Some? { PatchRules(req); }
    cfg := if verdict.Valid? then Some(PatchedConfig(req)) else None;
  }

  /** Every create and patch request of the run carried a configuration that validation lets through. */
  predicate RequestsValid(steps: seq<Step>) {
    forall i :: 0 <= i < |steps| && steps[i].Begin? ==>
      && (steps[i].request.NewRequest? ==> ConfigOk(steps[i].request.cfg))
      && (steps[i].request.PatchRequest? ==> PatchConfigOk(steps[i].request.patch))
  }

  predicate CallContentOk(c: Call) {
    match c
    case TNew(n) => ConfigOk(n.cfg) && (n.info.Some? ==> RecordContentOk(n.info.value))
    case TPatch(p) => PatchConfigOk(p.cfg) && (p.copy.Some? ==> RecordContentOk(p.copy.value))
    case TKill(k) => k.copy.Some? ==> RecordContentOk(k.copy.value)
    case _ => true
  }

  ghost predicate AllContentOk(s: State) {
    && (forall stream <- s.records :: RecordContentOk(s.records[stream]))
    && (forall t <- s.calls :: CallContentOk(s.calls[t]))
  }

  ghost predicate MoveContentOk(m: Move) {
    CallContentOk(m.call) && (m.write.PutRecord? ==> RecordContentOk(m.write.info))
  }

  lemma NewContent(s: State, t: CallId, a: NewAction)
    requires NewEnabled(s, t, a) && CallContentOk(s.calls[t])
    ensures MoveContentOk(NewMove(s, t, a))
  {}

  lemma PatchContent(s: State, t: CallId, a: PatchAction)
    requires PatchEnabled(s, t, a) && CallContentOk(s.calls[t])
    requires s.calls[t].p.stream in s.records ==> RecordContentOk(s.records[s.calls[t].p.stream])
    ensures MoveContentOk(PatchMove(s, t, a))
  {}

  lemma KillContent(s: State, t: CallId, a: KillAction)
    requires KillEnabled(s, t, a) && CallContentOk(s.calls[t])
    requires s.calls[t].k.stream in s.records ==> RecordContentOk(s.records[s.calls[t].k.stream])
    ensures MoveContentOk(KillMove(s, t, a))
  {}

  lemma MoveKeepsContent(s: State, t: CallId, m: Move)
    requires AllContentOk(s) && MoveContentOk(m)
    ensures AllContentOk(Perform(s, t, m))
  {}

  lemma StepContent(s: State, step: Step)
    requires AllContentOk(s) && Enabled(s, step) && !step.Tick? && RequestsValid([step])
    ensures MoveContentOk(MoveOf(s, step))
  {
    if step.ByNew? {
      NewContent(s, step.t, step.create);
    } else if step.ByPatch? {
      PatchContent(s, step.t, step.patch);
    } else if step.ByKill? {
      KillContent(s, step.t, step.kill);
    } else if step.Begin? {
      assert [step][0] == step;
    }
  }

  /** When all creates and patches pass validation, every record of every run has a six-digit code whenever its
      policy is by_code, a name that is empty or of 5 to 32 bytes, a description of at most 96, and a policy
      that is one of the three or empty. */
  lemma {:induction false} RecordsStayValid(steps: seq<Step>, s: State)
    requires Reached(steps, s) && RequestsValid(steps)
    ensures AllContentOk(s)
  {
    if steps != [] {
      var before := steps[..|steps| - 1];
      var step := steps[|steps| - 1];
      RecordsStayValid(before, Exec(before).value);
      if !step.Tick? {
        StepContent(Exec(before).value, step);
        MoveKeepsContent(Exec(before).value, step.t, MoveOf(Exec(before).value, step));
      }
    }
  }
}
