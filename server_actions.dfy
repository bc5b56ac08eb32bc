/** Server actions: every action method of `Server` posts a body
    `{actionName: payload}` to `<Server.base_path>/<id>/action`, and
    `ServerOS.reinstall` posts `{"os-reinstall": <changed attributes>}` to
    `/cloudservers/<server_id>/reinstallos`. Optional arguments are Python
    keyword arguments defaulting to `None`; a key for one is added only when
    the argument is not `None`. */
module ServerActions {
  import opened Json

  /** `Server.base_path`; actions use it even for `ServerDetail` objects. */
  const ServerBasePath := "/servers"
  const DetailBasePath := "/servers/detail"
  /** `ServerOS.base_path`. */
  const ServerOSBasePath := "/cloudservers"

  /** The resource classes whose instances can run an action. */
  datatype ServerClass = PlainServer | ServerDetail | ServerListDetail

  /** `base_path` of each class. */
  function BasePath(c: ServerClass): string
  {
    match c
    case PlainServer => ServerBasePath
    case ServerDetail => DetailBasePath
    case ServerListDetail => DetailBasePath
  }

  /** One call of an action method, with its arguments (`Null` for `None`). */
  datatype ServerAction =
    | ChangePassword(newPassword: Value)
    | Reboot(rebootType: Value)
    | ForceDelete
    | Rebuild(name: Value, adminPassword: Value, preserveEphemeral: Value, image: Value,
              accessIpv4: Value, accessIpv6: Value, metadata: Value, personality: Value)
    | Resize(flavor: Value)
    | ConfirmResize
    | RevertResize
    | CreateImage(name: Value, metadata: Value)
    | AddSecurityGroup(securityGroup: Value)
    | RemoveSecurityGroup(securityGroup: Value)
    | ResetState(state: Value)
    | AddFixedIp(networkId: Value)
    | RemoveFixedIp(address: Value)
    | AddFloatingIp(address: Value, fixedAddress: Value)
    | RemoveFloatingIp(address: Value)
    | Pause
    | Unpause
    | Suspend
    | Resume
    | Lock
    | Unlock
    | Rescue(adminPass: Value, imageRef: Value)
    | Unrescue
    | Evacuate(host: Value, adminPass: Value, force: Value)
    | Start
    | Stop(stopType: Value)
    | Shelve
    | Unshelve
    | ConsoleOutput(lines: Value)

  /** The `rebuild` argument list as the method declares it, so that
      `preserve_ephemeral` defaults to `False` and the others to `None`. */
  function RebuildWithDefaults(name: Value, adminPassword: Value): ServerAction
  {
    Rebuild(name, adminPassword, Bool(false), Null, Null, Null, Null, Null)
  }

  /** The single top-level key of the action's body. */
  function ActionName(a: ServerAction): string
  {
    match a
    case ChangePassword(_) => "changePassword"
    case Reboot(_) => "reboot"
    case ForceDelete => "forceDelete"
    case Rebuild(_, _, _, _, _, _, _, _) => "rebuild"
    case Resize(_) => "resize"
    case ConfirmResize => "confirmResize"
    case RevertResize => "revertResize"
    case CreateImage(_, _) => "createImage"
    case AddSecurityGroup(_) => "addSecurityGroup"
    case RemoveSecurityGroup(_) => "removeSecurityGroup"
    case ResetState(_) => "os-resetState"
    case AddFixedIp(_) => "addFixedIp"
    case RemoveFixedIp(_) => "removeFixedIp"
    case AddFloatingIp(_, _) => "addFloatingIp"
    case RemoveFloatingIp(_) => "removeFloatingIp"
    case Pause => "pause"
    case Unpause => "unpause"
    case Suspend => "suspend"
    case Resume => "resume"
    case Lock => "lock"
    case Unlock => "unlock"
    case Rescue(_, _) => "rescue"
    case Unrescue => "unrescue"
    case Evacuate(_, _, _) => "evacuate"
    case Start => "os-start"
    case Stop(_) => "os-stop"
    case Shelve => "shelve"
    case Unshelve => "unshelve"
    case ConsoleOutput(_) => "os-getConsoleOutput"
  }

  /** `if v is not None: m[key] = v`. */
  function Put(m: Record, key: string, v: Value): Record
  {
    if v != Null then m[key := v] else m
  }

  /** `rebuild`'s dict. `image` goes through `Resource._get_id`, which is not
      part of this model: the argument is taken to be the image id already. */
  function RebuildPayload(name: Value, pass: Value, preserve: Value, image: Value,
                          ip4: Value, ip6: Value, meta: Value, pers: Value): Record
  {
    var required := map["name" := name, "adminPass" := pass, "preserve_ephemeral" := preserve];
    Put(Put(Put(Put(Put(required, "imageRef", image), "accessIPv4", ip4), "accessIPv6", ip6),
            "metadata", meta), "personality", pers)
  }

  /** `rescue`'s dict. */
  function RescuePayload(pass: Value, img: Value): Record
  {
    Put(Put(map[], "adminPass", pass), "rescue_image_ref", img)
  }

  /** `evacuate`'s dict. */
  function EvacuatePayload(host: Value, pass: Value, force: Value): Record
  {
    Put(Put(Put(map[], "host", host), "adminPass", pass), "force", force)
  }

  /** `Put` adds `key` exactly when `v` is not `None` and keeps every other entry. */
  lemma PutKeeps(m: Record, key: string, v: Value)
    ensures Put(m, key, v).Keys == m.Keys + (if v != Null then {key} else {})
    ensures v != Null ==> Put(m, key, v)[key] == v
    ensures forall k :: k in m && k != key ==> Put(m, key, v)[k] == m[k]
  {
  }

  /** The actions whose method posts `None` as the payload. */
  predicate NoArgument(a: ServerAction)
  {
    a.ForceDelete? || a.ConfirmResize? || a.RevertResize? || a.Pause? || a.Unpause?
    || a.Suspend? || a.Resume? || a.Lock? || a.Unlock? || a.Unrescue? || a.Start?
    || a.Shelve? || a.Unshelve?
  }

  /** The value under the action name (`None` for the argument-less actions). */
  function Payload(a: ServerAction): (v: Value)
    ensures v == Null <==> NoArgument(a)
    ensures v != Null ==> v.Object?
  {
    match a
    case ChangePassword(p) => Object(map["adminPass" := p])
    case Reboot(t) => Object(map["type" := t])
    case Rebuild(name, pass, preserve, image, ip4, ip6, meta, pers) =>
      Object(RebuildPayload(name, pass, preserve, image, ip4, ip6, meta, pers))
    case Resize(f) => Object(map["flavorRef" := f])
    case CreateImage(name, meta) => Object(Put(map["name" := name], "metadata", meta))
    case AddSecurityGroup(g) => Object(map["name" := g])
    case RemoveSecurityGroup(g) => Object(map["name" := g])
    case ResetState(s) => Object(map["state" := s])
    case AddFixedIp(n) => Object(map["networkId" := n])
    case RemoveFixedIp(addr) => Object(map["address" := addr])
    case AddFloatingIp(addr, fixed) => Object(Put(map["address" := addr], "fixed_address", fixed))
    case RemoveFloatingIp(addr) => Object(map["address" := addr])
    case Rescue(pass, img) => Object(RescuePayload(pass, img))
    case Evacuate(host, pass, force) => Object(EvacuatePayload(host, pass, force))
    case Stop(t) => Object(map["type" := t])
    case ConsoleOutput(n) => Object(map["length" := n])
    case _ => Null
  }

  /** The body an action method hands to `_action`: exactly one key, the
      action's name, holding its payload. */
  function ActionBody(a: ServerAction): (body: Record)
    ensures |body| == 1 && body.Keys == {ActionName(a)}
  {
    map[ActionName(a) := Payload(a)]
  }

  /** `rebuild`: `name`, `adminPass` and `preserve_ephemeral` are always sent;
      each optional key exactly when its argument is not `None`. */
  lemma RebuildPayloadKeys(name: Value, pass: Value, preserve: Value, image: Value,
                           ip4: Value, ip6: Value, meta: Value, pers: Value)
    ensures RebuildPayload(name, pass, preserve, image, ip4, ip6, meta, pers).Keys
         == {"name", "adminPass", "preserve_ephemeral"}
            + (if image != Null then {"imageRef"} else {})
            + (if ip4 != Null then {"accessIPv4"} else {})
            + (if ip6 != Null then {"accessIPv6"} else {})
            + (if meta != Null then {"metadata"} else {})
            + (if pers != Null then {"personality"} else {})
  {
    var m0 := map["name" := name, "adminPass" := pass, "preserve_ephemeral" := preserve];
    var m1 := Put(m0, "imageRef", image);
    var m2 := Put(m1, "accessIPv4", ip4);
    var m3 := Put(m2, "accessIPv6", ip6);
    var m4 := Put(m3, "metadata", meta);
    assert m0.Keys == {"name", "adminPass", "preserve_ephemeral"};
    PutKeeps(m0, "imageRef", image);
    PutKeeps(m1, "accessIPv4", ip4);
    PutKeeps(m2, "accessIPv6", ip6);
    PutKeeps(m3, "metadata", meta);
    PutKeeps(m4, "personality", pers);
  }

  /** `rebuild`: every key sent holds its argument. */
  lemma RebuildPayloadValues(name: Value, pass: Value, preserve: Value, image: Value,
                             ip4: Value, ip6: Value, meta: Value, pers: Value)
    ensures var p := RebuildPayload(name, pass, preserve, image, ip4, ip6, meta, pers);
      && "name" in p && p["name"] == name
      && "adminPass" in p && p["adminPass"] == pass
      && "preserve_ephemeral" in p && p["preserve_ephemeral"] == preserve
      && (image != Null ==> "imageRef" in p && p["imageRef"] == image)
      && (ip4 != Null ==> "accessIPv4" in p && p["accessIPv4"] == ip4)
      && (ip6 != Null ==> "accessIPv6" in p && p["accessIPv6"] == ip6)
      && (meta != Null ==> "metadata" in p && p["metadata"] == meta)
      && (pers != Null ==> "personality" in p && p["personality"] == pers)
  {
    var m0 := map["name" := name, "adminPass" := pass, "preserve_ephemeral" := preserve];
    var m1 := Put(m0, "imageRef", image);
    var m2 := Put(m1, "accessIPv4", ip4);
    var m3 := Put(m2, "accessIPv6", ip6);
    var m4 := Put(m3, "metadata", meta);
    PutKeeps(m0, "imageRef", image);
    PutKeeps(m1, "accessIPv4", ip4);
    PutKeeps(m2, "accessIPv6", ip6);
    PutKeeps(m3, "metadata", meta);
    PutKeeps(m4, "personality", pers);
  }

  /** `rebuild` called with only the required arguments. */
  lemma RebuildDefaultsBody(name: Value, pass: Value)
    ensures ActionBody(RebuildWithDefaults(name, pass))
         == map["rebuild" := Object(map["name" := name, "adminPass" := pass, "preserve_ephemeral" := Bool(false)])]
  {
    RebuildPayloadKeys(name, pass, Bool(false), Null, Null, Null, Null, Null);
    RebuildPayloadValues(name, pass, Bool(false), Null, Null, Null, Null, Null);
  }

  /** `create_image`: `metadata` is sent exactly when it is not `None`. */
  lemma CreateImageBodyKeys(name: Value, meta: Value)
    ensures var p := Payload(CreateImage(name, meta));
      && p.Object?
      && p.fields.Keys == {"name"} + (if meta != Null then {"metadata"} else {})
      && p.fields["name"] == name
      && (meta != Null ==> p.fields["metadata"] == meta)
  {
  }

  /** `rescue`: each key is sent exactly when its argument is not `None`. */
  lemma RescuePayloadKeys(pass: Value, img: Value)
    ensures var p := RescuePayload(pass, img);
      && p.Keys == (if pass != Null then {"adminPass"} else {}) + (if img != Null then {"rescue_image_ref"} else {})
      && (pass != Null ==> p["adminPass"] == pass)
      && (img != Null ==> p["rescue_image_ref"] == img)
  {
  }

  /** `evacuate`: each key is sent exactly when its argument is not `None`. */
  lemma EvacuatePayloadKeys(host: Value, pass: Value, force: Value)
    ensures var p := EvacuatePayload(host, pass, force);
      && p.Keys == (if host != Null then {"host"} else {}) + (if pass != Null then {"adminPass"} else {})
                 + (if force != Null then {"force"} else {})
      && (host != Null ==> p["host"] == host)
      && (pass != Null ==> p["adminPass"] == pass)
      && (force != Null ==> p["force"] == force)
  {
  }

  /** `rescue`: builds `{"rescue": {}}` and adds the keys one by one. */
  method RescueBody(adminPass: Value, imageRef: Value) returns (body: Record)
    ensures body == ActionBody(Rescue(adminPass, imageRef))
  {
    body := map["rescue" := Object(map[])];
    if adminPass != Null {
      body := body["rescue" := Object(body["rescue"].fields["adminPass" := adminPass])];
    }
    if imageRef != Null {
      body := body["rescue" := Object(body["rescue"].fields["rescue_image_ref" := imageRef])];
    }
  }

  /** `evacuate`: builds `{"evacuate": {}}` and adds the keys one by one. */
  method EvacuateBody(host: Value, adminPass: Value, force: Value) returns (body: Record)
    ensures body == ActionBody(Evacuate(host, adminPass, force))
  {
    ghost var m1 := Put(map[], "host", host);
    ghost var m2 := Put(m1, "adminPass", adminPass);
    ghost var m3 := Put(m2, "force", force);
    body := map["evacuate" := Object(map[])];
    if host != Null {
      body := body["evacuate" := Object(body["evacuate"].fields["host" := host])];
    }
    assert body == map["evacuate" := Object(m1)];
    if adminPass != Null {
      body := body["evacuate" := Object(body["evacuate"].fields["adminPass" := adminPass])];
    }
    assert body == map["evacuate" := Object(m2)];
    if force != Null {
      body := body["evacuate" := Object(body["evacuate"].fields["force" := force])];
    }
    assert body == map["evacuate" := Object(m3)];
    assert ActionName(Evacuate(host, adminPass, force)) == "evacuate";
    assert Payload(Evacuate(host, adminPass, force)) == Object(m3);
  }

  /** `add_floating_ip`: `address` is always sent, `fixed_address` exactly
      when it is not `None`. */
  lemma AddFloatingIpPayloadKeys(address: Value, fixedAddress: Value)
    ensures Payload(AddFloatingIp(address, fixedAddress)).Object?
    ensures var p := Payload(AddFloatingIp(address, fixedAddress)).fields;
      && p.Keys == {"address"} + (if fixedAddress != Null then {"fixed_address"} else {})
      && p["address"] == address
      && (fixedAddress != Null ==> p["fixed_address"] == fixedAddress)
  {
    PutKeeps(map["address" := address], "fixed_address", fixedAddress);
  }

  /** `add_floating_ip`: `address` always, `fixed_address` when given. */
  method AddFloatingIpBody(address: Value, fixedAddress: Value) returns (body: Record)
    ensures body == ActionBody(AddFloatingIp(address, fixedAddress))
  {
    ghost var m := Put(map["address" := address], "fixed_address", fixedAddress);
    body := map["addFloatingIp" := Object(map["address" := address])];
    if fixedAddress != Null {
      body := body["addFloatingIp" := Object(body["addFloatingIp"].fields["fixed_address" := fixedAddress])];
    }
    assert body == map["addFloatingIp" := Object(m)];
    assert ActionName(AddFloatingIp(address, fixedAddress)) == "addFloatingIp";
    assert Payload(AddFloatingIp(address, fixedAddress)) == Object(m);
  }

  /** A POST the core hands to the session: the path as the list of segments
      given to `utils.urljoin`, the headers and the JSON body. */
  datatype Post = Post(pathSegments: seq<string>, headers: map<string, string>, body: Record)

  /** `Server._action` on an instance of class `c` with id `id`. */
  function ActionPost(c: ServerClass, id: string, a: ServerAction): (p: Post)
    // the path uses `Server.base_path`, whatever the instance's own class is
    ensures p.pathSegments == [BasePath(PlainServer), id, "action"]
    ensures c != PlainServer ==> p.pathSegments[0] != BasePath(c)
    ensures p.headers == map["Accept" := ""]
    ensures p.body.Keys == {ActionName(a)} && p.body[ActionName(a)] == Payload(a)
  {
    Post([ServerBasePath, id, "action"], map["Accept" := ""], ActionBody(a))
  }

  /** `_action` posts the same request whatever the instance's class: the
      detail classes' own `base_path` is never used. */
  lemma ActionPostAnyClass(c: ServerClass, id: string, a: ServerAction)
    ensures ActionPost(c, id, a) == ActionPost(PlainServer, id, a)
  {
  }

  /** `ServerOS.reinstall`: the changed (dirty) attributes go under one key. */
  function ReinstallPost(serverId: string, dirty: Record): (p: Post)
    ensures p.pathSegments == [ServerOSBasePath, serverId, "reinstallos"]
    ensures p.headers == map["Accept" := ""]
    ensures p.body.Keys == {"os-reinstall"} && p.body["os-reinstall"] == Object(dirty)
  {
    Post([ServerOSBasePath, serverId, "reinstallos"], map["Accept" := ""], map["os-reinstall" := Object(dirty)])
  }

  /** `console_output`: `response.json()["output"]`, given the decoded response. */
  function ConsoleOutputText(response: Record): (r: Result<Value>)
    ensures r.Success? <==> "output" in response
    ensures r.Success? ==> r.value == response["output"]
    ensures r.Failure? ==> r.error == KeyError("output")
  {
    if "output" in response then Success(response["output"]) else Failure(KeyError("output"))
  }

  /** A soft reboot of server 42. */
  lemma RebootExample()
    ensures ActionPost(PlainServer, "42", Reboot(Str("SOFT")))
         == Post(["/servers", "42", "action"], map["Accept" := ""],
                 map["reboot" := Object(map["type" := Str("SOFT")])])
  {
  }
}
