/** Venues as files and as the tail of an invite, and the servers a mesh ends up with. */
module Invites {
  import opened Wrappers
  import Base64Url

  type Byte = Base64Url.Byte

  datatype Turn = Turn(url: string, username: string, credential: string)

  /** A venue; one with a non-empty url is remote, any other is static. */
  datatype Venue = Venue(title: string, url: Option<string>, signaling: seq<string>, stun: seq<string>, turn: seq<Turn>)

  datatype ServerSet = ServerSet(signaling: seq<string>, stun: seq<string>, turn: seq<Turn>)

  datatype EnvelopeTurn = EnvelopeTurn(url: string, username: Option<string>, credential: Option<string>)

  /** The shareable envelope; absent fields are none. */
  datatype Envelope = Envelope(
    title: string, url: Option<string>,
    signaling: Option<seq<string>>, stun: Option<seq<string>>, turn: Option<seq<EnvelopeTurn>>)

  datatype Json = Null | Num(n: int) | Str(s: string) | Arr(items: seq<Json>) | Obj(fields: map<string, Json>)

  // Trimming

  /** ECMAScript's white space and line terminators. */
  predicate IsSpace(c: char) {
    var n := c as int;
    (9 <= n <= 13) || n == 0x20 || n == 0xA0 || n == 0x1680 || (0x2000 <= n <= 0x200A) ||
    n == 0x2028 || n == 0x2029 || n == 0x202F || n == 0x205F || n == 0x3000 || n == 0xFEFF
  }

  function TrimStart(s: string): string {
    if s != "" && IsSpace(s[0]) then TrimStart(s[1..]) else s
  }

  function TrimEnd(s: string): string {
    if s != "" && IsSpace(s[|s| - 1]) then TrimEnd(s[..|s| - 1]) else s
  }

  function Trim(s: string): string {
    TrimEnd(TrimStart(s))
  }

  predicate AllSpace(s: string) {
    forall i :: 0 <= i < |s| ==> IsSpace(s[i])
  }

  /** Trimming takes off the white space at both ends, all of it and nothing else. */
  lemma {:induction false} TrimMeans(s: string) returns (before: string, after: string)
    ensures s == before + Trim(s) + after && AllSpace(before) && AllSpace(after)
    ensures Trim(s) != "" ==> !IsSpace(Trim(s)[0]) && !IsSpace(Trim(s)[|Trim(s)| - 1])
  {
    before := TrimStartMeans(s);
    after := TrimEndMeans(TrimStart(s));
    assert Trim(s) != "" ==> Trim(s)[0] == TrimStart(s)[0];
  }

  lemma {:induction false} TrimStartMeans(s: string) returns (before: string)
    ensures s == before + TrimStart(s) && AllSpace(before)
    ensures TrimStart(s) != "" ==> !IsSpace(TrimStart(s)[0])
  {
    if s != "" && IsSpace(s[0]) {
      before := TrimStartMeans(s[1..]);
      before := [s[0]] + before;
    } else {
      before := "";
    }
  }

  lemma {:induction false} TrimEndMeans(s: string) returns (after: string)
    ensures s == TrimEnd(s) + after && AllSpace(after)
    ensures TrimEnd(s) != "" ==> !IsSpace(TrimEnd(s)[|TrimEnd(s)| - 1])
  {
    if s != "" && IsSpace(s[|s| - 1]) {
      after := TrimEndMeans(s[..|s| - 1]);
      after := after + [s[|s| - 1]];
    } else {
      after := "";
    }
  }

  function NonBlank(servers: seq<string>): seq<string> {
    if servers == [] then []
    else (if Trim(servers[0]) != "" then [servers[0]] else []) + NonBlank(servers[1..])
  }

  function NonBlankTurns(turns: seq<Turn>): seq<Turn> {
    if turns == [] then []
    else (if Trim(turns[0].url) != "" then [turns[0]] else []) + NonBlankTurns(turns[1..])
  }

  // Envelopes

  predicate IsRemote(v: Venue) {
    v.url.Some? && v.url.value != ""
  }

  /** A text kept only if it is not empty. */
  function Named(s: string): Option<string> {
    if s != "" then Some(s) else None
  }

  function ExportTurns(turns: seq<Turn>): seq<EnvelopeTurn> {
    if turns == [] then []
    else
      var t, rest := turns[0], ExportTurns(turns[1..]);
      if Trim(t.url) != "" then [EnvelopeTurn(t.url, Named(t.username), Named(t.credential))] + rest else rest
  }

  function ExportVenue(v: Venue): Envelope {
    if IsRemote(v) then Envelope(v.title, v.url, None, None, None)
    else Envelope(v.title, None, Some(NonBlank(v.signaling)), Some(NonBlank(v.stun)), Some(ExportTurns(v.turn)))
  }

  const KIND := "allmystuff.venue"

  function StrArr(servers: seq<string>): Json {
    Arr(seq(|servers|, i requires 0 <= i < |servers| => Str(servers[i])))
  }

  function Field(name: string, value: Option<Json>): map<string, Json> {
    if value.Some? then map[name := value.value] else map[]
  }

  function StrField(name: string, value: Option<string>): map<string, Json> {
    if value.Some? then map[name := Str(value.value)] else map[]
  }

  function TurnJson(t: EnvelopeTurn): Json {
    Obj(map["url" := Str(t.url)] + StrField("username", t.username) + StrField("credential", t.credential))
  }

  function TurnArr(turns: seq<EnvelopeTurn>): Json {
    Arr(seq(|turns|, i requires 0 <= i < |turns| => TurnJson(turns[i])))
  }

  /** The envelope as the JSON value that is written out. */
  function ToJson(env: Envelope): Json {
    Obj(map["kind" := Str(KIND), "version" := Num(1), "label" := Str(env.title)]
        + StrField("url", env.url)
        + Field("signaling_servers", if env.signaling.Some? then Some(StrArr(env.signaling.value)) else None)
        + Field("stun_servers", if env.stun.Some? then Some(StrArr(env.stun.value)) else None)
        + Field("turn_servers", if env.turn.Some? then Some(TurnArr(env.turn.value)) else None))
  }

  // Reading an envelope back

  function Get(fields: map<string, Json>, name: string): Option<Json> {
    if name in fields then Some(fields[name]) else None
  }

  function TextOf(value: Option<Json>): Option<string> {
    if value.Some? && value.value.Str? && value.value.s != "" then Some(value.value.s) else None
  }

  function Texts(items: seq<Json>): seq<string> {
    if items == [] then [] else (if items[0].Str? then [items[0].s] else []) + Texts(items[1..])
  }

  function Strings(value: Option<Json>): seq<string> {
    if value.Some? && value.value.Arr? then Texts(value.value.items) else []
  }

  function CoerceTurn(items: seq<Json>): seq<EnvelopeTurn> {
    if items == [] then []
    else
      var rest, item := CoerceTurn(items[1..]), items[0];
      if item.Obj? && Get(item.fields, "url").Some? && item.fields["url"].Str? then
        [EnvelopeTurn(item.fields["url"].s, TextOf(Get(item.fields, "username")),
          TextOf(Get(item.fields, "credential")))] + rest
      else rest
  }

  function Turns(value: Option<Json>): seq<EnvelopeTurn> {
    if value.Some? && value.value.Arr? then CoerceTurn(value.value.items) else []
  }

  predicate IsVenueExport(raw: Json) {
    && raw.Obj? && Get(raw.fields, "kind") == Some(Str(KIND))
    && Get(raw.fields, "label").Some? && raw.fields["label"].Str?
  }

  function VenueOf(raw: Json): Option<Envelope> {
    if !IsVenueExport(raw) then None
    else
      Some(Envelope(raw.fields["label"].s, TextOf(Get(raw.fields, "url")),
        Some(Strings(Get(raw.fields, "signaling_servers"))), Some(Strings(Get(raw.fields, "stun_servers"))),
        Some(Turns(Get(raw.fields, "turn_servers")))))
  }

  /** JSON text in UTF-8: writing a value, and reading bytes that may not be JSON. */
  datatype Codec = Codec(write: Json -> seq<Byte>, read: seq<Byte> -> Option<Json>)

  ghost predicate ReadsBack(codec: Codec) {
    forall j: Json :: codec.read(codec.write(j)) == Some(j)
  }

  function TryParseVenue(codec: Codec, text: seq<Byte>): Option<Envelope> {
    var parsed := codec.read(text);
    if parsed.None? then None else VenueOf(parsed.value)
  }

  function ImportTurn(t: EnvelopeTurn): Turn {
    Turn(t.url,
      if t.username.Some? then t.username.value else "",
      if t.credential.Some? then t.credential.value else "")
  }

  function OrEmpty<T>(o: Option<seq<T>>): seq<T> {
    if o.Some? then o.value else []
  }

  function VenueFromExport(env: Envelope): Venue {
    Venue(if env.title != "" then env.title else "Imported venue", env.url, OrEmpty(env.signaling), OrEmpty(env.stun),
      seq(|OrEmpty(env.turn)|, i requires 0 <= i < |OrEmpty(env.turn)| => ImportTurn(OrEmpty(env.turn)[i])))
  }

  // Invites

  function InviteJson(venues: seq<Venue>): Json {
    Arr(seq(|venues|, i requires 0 <= i < |venues| => ToJson(ExportVenue(venues[i]))))
  }

  /** Each entry normalized through the parser files go through; none if any is no venue. */
  function ParseAll(codec: Codec, items: seq<Json>): Option<seq<Envelope>> {
    if items == [] then Some([])
    else
      var first, rest := TryParseVenue(codec, codec.write(items[0])), ParseAll(codec, items[1..]);
      if first.None? || rest.None? then None else Some([first.value] + rest.value)
  }

  function DecodeInvite(codec: Codec, part: string): Option<seq<Envelope>> {
    var bytes := Base64Url.Decode(part);
    var parsed := if bytes.None? then None else codec.read(bytes.value);
    if parsed.None? || !parsed.value.Arr? || parsed.value.items == [] then None else ParseAll(codec, parsed.value.items)
  }

  function Latin1(bytes: seq<Byte>): string {
    seq(|bytes|, i requires 0 <= i < |bytes| => bytes[i] as char)
  }

  /** btoa of a string of bytes. */
  function BtoaOf(bin: string): string
    requires forall i :: 0 <= i < |bin| ==> bin[i] as int < 256
  {
    Base64Url.Btoa(seq(|bin|, i requires 0 <= i < |bin| => bin[i] as int))
  }

  /** encodeInviteVenues, with its loop from bytes to a string. */
  method EncodeInvite(codec: Codec, venues: seq<Venue>) returns (part: string)
    ensures part == Base64Url.Encode(codec.write(InviteJson(venues)))
  {
    var bytes: seq<Byte> := codec.write(InviteJson(venues));
    var bin: string := "";
    var i: nat := 0;
    while i < |bytes|
      invariant i <= |bytes| && bin == Latin1(bytes[..i])
    {
      bin := bin + [bytes[i] as char];
      i := i + 1;
    }
    assert bytes[..i] == bytes;
    assert seq(|bin|, k requires 0 <= k < |bin| => bin[k] as int) == bytes;
    part := Base64Url.StripPads(Base64Url.Safe(BtoaOf(bin)));
  }

  // What survives the trip

  /** What an importer gets to see of a venue. */
  ghost predicate Carries(env: Envelope, v: Venue) {
    && env.title == v.title
    && env.url == (if IsRemote(v) then v.url else None)
    && env.signaling == Some(if IsRemote(v) then [] else NonBlank(v.signaling))
    && env.stun == Some(if IsRemote(v) then [] else NonBlank(v.stun))
    && env.turn == Some(if IsRemote(v) then [] else ExportTurns(v.turn))
  }

  lemma {:induction false} TextsOfStrings(servers: seq<string>)
    ensures Texts(StrArr(servers).items) == servers
  {
    if servers == [] {
    } else {
      assert StrArr(servers).items[1..] == StrArr(servers[1..]).items;
      TextsOfStrings(servers[1..]);
    }
  }

  ghost predicate TurnsNamed(turns: seq<EnvelopeTurn>) {
    forall i :: 0 <= i < |turns| ==> TurnNamed(turns[i])
  }

  predicate TurnNamed(t: EnvelopeTurn) {
    t.username != Some("") && t.credential != Some("")
  }

  lemma TurnFields(t: EnvelopeTurn)
    requires TurnNamed(t)
    ensures CoerceTurn([TurnJson(t)]) == [t]
  {
    var fields := TurnJson(t).fields;
    assert "url" in fields && fields["url"] == Str(t.url);
    assert "username" in fields <==> t.username.Some?;
    assert "credential" in fields <==> t.credential.Some?;
    assert CoerceTurn([TurnJson(t)][1..]) == [];
  }

  lemma CoerceFirst(item: Json, rest: seq<Json>)
    ensures CoerceTurn([item] + rest) == CoerceTurn([item]) + CoerceTurn(rest)
  {
    assert ([item] + rest)[1..] == rest && CoerceTurn([item][1..]) == [];
  }

  lemma {:induction false} CoerceTurnsBack(turns: seq<EnvelopeTurn>)
    requires TurnsNamed(turns)
    ensures CoerceTurn(TurnArr(turns).items) == turns
  {
    if turns == [] {
    } else {
      assert TurnNamed(turns[0]);
      TurnFields(turns[0]);
      assert TurnArr(turns).items == [TurnJson(turns[0])] + TurnArr(turns[1..]).items;
      CoerceFirst(TurnJson(turns[0]), TurnArr(turns[1..]).items);
      CoerceTurnsBack(turns[1..]);
    }
  }

  lemma {:induction false} ExportedTurnsNamed(turns: seq<Turn>)
    ensures TurnsNamed(ExportTurns(turns))
  {
    if turns == [] {
    } else {
      ExportedTurnsNamed(turns[1..]);
    }
  }

  lemma JsonTexts(env: Envelope)
    ensures var fields := ToJson(env).fields;
            && Get(fields, "kind") == Some(Str(KIND)) && Get(fields, "label") == Some(Str(env.title))
            && Get(fields, "url") == (if env.url.Some? then Some(Str(env.url.value)) else None)
  {
  }

  lemma JsonLists(env: Envelope)
    ensures var fields := ToJson(env).fields;
            && Get(fields, "signaling_servers") ==
              (if env.signaling.Some? then Some(StrArr(env.signaling.value)) else None)
            && Get(fields, "stun_servers") == (if env.stun.Some? then Some(StrArr(env.stun.value)) else None)
            && Get(fields, "turn_servers") == (if env.turn.Some? then Some(TurnArr(env.turn.value)) else None)
  {
  }

  /** Exported, written out and parsed, a venue keeps its label, its url or its servers. */
  lemma ExportCarries(v: Venue)
    ensures VenueOf(ToJson(ExportVenue(v))).Some? && Carries(VenueOf(ToJson(ExportVenue(v))).value, v)
  {
    var env := ExportVenue(v);
    JsonTexts(env);
    JsonLists(env);
    if !IsRemote(v) {
      TextsOfStrings(env.signaling.value);
      TextsOfStrings(env.stun.value);
      ExportedTurnsNamed(v.turn);
      CoerceTurnsBack(env.turn.value);
    }
  }

  ghost predicate AllCarry(envs: seq<Envelope>, venues: seq<Venue>) {
    |envs| == |venues| && forall i :: 0 <= i < |venues| ==> Carries(envs[i], venues[i])
  }

  lemma ParseOneCarries(codec: Codec, v: Venue)
    requires ReadsBack(codec)
    ensures var parsed := TryParseVenue(codec, codec.write(ToJson(ExportVenue(v))));
            parsed.Some? && Carries(parsed.value, v)
  {
    ExportCarries(v);
  }

  lemma AllCarryFirst(first: Envelope, rest: seq<Envelope>, venues: seq<Venue>)
    requires venues != [] && Carries(first, venues[0]) && AllCarry(rest, venues[1..])
    ensures AllCarry([first] + rest, venues)
  {
    forall i | 0 <= i < |venues| ensures Carries(([first] + rest)[i], venues[i]) {
      assert i > 0 ==> Carries(rest[i - 1], venues[1..][i - 1]);
    }
  }

  lemma InviteFirst(venues: seq<Venue>)
    requires venues != []
    ensures InviteJson(venues).items == [ToJson(ExportVenue(venues[0]))] + InviteJson(venues[1..]).items
  {
  }

  lemma ParseFirst(codec: Codec, first: Json, rest: seq<Json>)
    requires TryParseVenue(codec, codec.write(first)).Some? && ParseAll(codec, rest).Some?
    ensures ParseAll(codec, [first] + rest) ==
      Some([TryParseVenue(codec, codec.write(first)).value] + ParseAll(codec, rest).value)
  {
    assert ([first] + rest)[1..] == rest;
  }

  lemma {:induction false} ParseAllCarries(codec: Codec, venues: seq<Venue>)
    requires ReadsBack(codec)
    ensures ParseAll(codec, InviteJson(venues).items).Some?
    ensures AllCarry(ParseAll(codec, InviteJson(venues).items).value, venues)
  {
    if venues == [] {
    } else {
      var first, rest := ToJson(ExportVenue(venues[0])), InviteJson(venues[1..]).items;
      InviteFirst(venues);
      ParseOneCarries(codec, venues[0]);
      ParseAllCarries(codec, venues[1..]);
      ParseFirst(codec, first, rest);
      AllCarryFirst(TryParseVenue(codec, codec.write(first)).value, ParseAll(codec, rest).value, venues);
    }
  }

  /** An invite made of any non-empty list of venues decodes to as many envelopes, in order,
      each carrying its venue's label, url and servers. */
  lemma InviteRoundTrip(codec: Codec, venues: seq<Venue>)
    requires ReadsBack(codec) && venues != []
    ensures var decoded := DecodeInvite(codec, Base64Url.Encode(codec.write(InviteJson(venues))));
            decoded.Some? && AllCarry(decoded.value, venues)
  {
    Base64Url.DecodeEncode(codec.write(InviteJson(venues)));
    ParseAllCarries(codec, venues);
  }

  /** A part is an invite if and only if it decodes to a list that is not empty and each of whose
      entries is a venue; the envelopes are theirs, in order. */
  lemma DecodesIff(codec: Codec, part: string)
    ensures var bytes, decoded := Base64Url.Decode(part), DecodeInvite(codec, part);
            && (decoded.Some? <==>
                  && bytes.Some? && codec.read(bytes.value).Some?
                  && var list := codec.read(bytes.value).value;
                  && list.Arr? && list.items != []
                  && forall i :: 0 <= i < |list.items| ==> TryParseVenue(codec, codec.write(list.items[i])).Some?)
            && (decoded.Some? ==>
                  var items := codec.read(bytes.value).value.items;
                  && |decoded.value| == |items|
                  && forall i :: 0 <= i < |items| ==>
                       Some(decoded.value[i]) == TryParseVenue(codec, codec.write(items[i])))
  {
    var bytes := Base64Url.Decode(part);
    if bytes.Some? && codec.read(bytes.value).Some? && codec.read(bytes.value).value.Arr? {
      ParsesEach(codec, codec.read(bytes.value).value.items);
    }
  }

  lemma {:induction false} ParsesEach(codec: Codec, items: seq<Json>)
    ensures ParseAll(codec, items).Some? <==>
      forall i :: 0 <= i < |items| ==> TryParseVenue(codec, codec.write(items[i])).Some?
    ensures ParseAll(codec, items).Some? ==>
      && |ParseAll(codec, items).value| == |items|
      && forall i :: 0 <= i < |items| ==>
           Some(ParseAll(codec, items).value[i]) == TryParseVenue(codec, codec.write(items[i]))
  {
    if items == [] {
    } else {
      ParsesEach(codec, items[1..]);
      assert items == [items[0]] + items[1..];
    }
  }

  // Effective servers

  function AddOnce(servers: seq<string>, s: string): seq<string> {
    if s in servers then servers else servers + [s]
  }

  function AddServers(servers: seq<string>, more: seq<string>): seq<string>
    decreases |more|
  {
    if more == [] then servers
    else AddServers(if Trim(more[0]) != "" then AddOnce(servers, Trim(more[0])) else servers, more[1..])
  }

  /** Map.set: a url keeps its place and takes the newer credentials. */
  function SetTurn(turns: seq<Turn>, t: Turn): seq<Turn> {
    if turns == [] then [t]
    else if turns[0].url == t.url then [t] + turns[1..]
    else [turns[0]] + SetTurn(turns[1..], t)
  }

  function AddTurns(turns: seq<Turn>, more: seq<Turn>): seq<Turn>
    decreases |more|
  {
    if more == [] then turns
    else
      var t := more[0];
      AddTurns(if Trim(t.url) != "" then SetTurn(turns, t.(url := Trim(t.url))) else turns, more[1..])
  }

  function AddVenue(known: ServerSet, v: Venue): ServerSet {
    ServerSet(AddServers(known.signaling, v.signaling), AddServers(known.stun, v.stun), AddTurns(known.turn, v.turn))
  }

  function AddVenues(known: ServerSet, venues: seq<Venue>): ServerSet
    decreases |venues|
  {
    if venues == [] then known else AddVenues(AddVenue(known, venues[0]), venues[1..])
  }

  const NO_SERVERS := ServerSet([], [], [])

  function UnionServers(venues: seq<Venue>): ServerSet {
    AddVenues(NO_SERVERS, venues)
  }

  /** The server lists of all venues, one after another. */
  function AllSignaling(venues: seq<Venue>): seq<string> {
    if venues == [] then [] else venues[0].signaling + AllSignaling(venues[1..])
  }

  function AllStun(venues: seq<Venue>): seq<string> {
    if venues == [] then [] else venues[0].stun + AllStun(venues[1..])
  }

  function AllTurns(venues: seq<Venue>): seq<Turn> {
    if venues == [] then [] else venues[0].turn + AllTurns(venues[1..])
  }

  lemma {:induction false} AddServersConcat(servers: seq<string>, a: seq<string>, b: seq<string>)
    ensures AddServers(servers, a + b) == AddServers(AddServers(servers, a), b)
    decreases |a|
  {
    if a == [] {
      assert a + b == b;
    } else {
      assert (a + b)[1..] == a[1..] + b;
      AddServersConcat(if Trim(a[0]) != "" then AddOnce(servers, Trim(a[0])) else servers, a[1..], b);
    }
  }

  lemma {:induction false} AddTurnsConcat(turns: seq<Turn>, a: seq<Turn>, b: seq<Turn>)
    ensures AddTurns(turns, a + b) == AddTurns(AddTurns(turns, a), b)
    decreases |a|
  {
    if a == [] {
      assert a + b == b;
    } else {
      assert (a + b)[1..] == a[1..] + b;
      AddTurnsConcat(if Trim(a[0].url) != "" then SetTurn(turns, a[0].(url := Trim(a[0].url))) else turns, a[1..], b);
    }
  }

  lemma {:induction false} UnionIsOneList(known: ServerSet, venues: seq<Venue>)
    ensures AddVenues(known, venues) ==
      ServerSet(AddServers(known.signaling, AllSignaling(venues)), AddServers(known.stun, AllStun(venues)),
        AddTurns(known.turn, AllTurns(venues)))
    decreases |venues|
  {
    if venues == [] {
    } else {
      UnionIsOneList(AddVenue(known, venues[0]), venues[1..]);
      AddServersConcat(known.signaling, venues[0].signaling, AllSignaling(venues[1..]));
      AddServersConcat(known.stun, venues[0].stun, AllStun(venues[1..]));
      AddTurnsConcat(known.turn, venues[0].turn, AllTurns(venues[1..]));
    }
  }

  ghost predicate Once(servers: seq<string>) {
    forall i, j :: 0 <= i < j < |servers| ==> servers[i] != servers[j]
  }

  predicate Offers(more: seq<string>, s: string) {
    exists i :: 0 <= i < |more| && Trim(more[i]) == s && s != ""
  }

  lemma {:induction false} AddServersMembers(servers: seq<string>, more: seq<string>, s: string)
    requires Once(servers)
    ensures Once(AddServers(servers, more))
    ensures s in AddServers(servers, more) <==> s in servers || Offers(more, s)
    decreases |more|
  {
    if more == [] {
    } else {
      var next := if Trim(more[0]) != "" then AddOnce(servers, Trim(more[0])) else servers;
      AddServersMembers(next, more[1..], s);
      if Offers(more[1..], s) {
        var i :| 0 <= i < |more[1..]| && Trim(more[1..][i]) == s && s != "";
        assert Trim(more[i + 1]) == s;
      }
    }
  }

  function Lookup(turns: seq<Turn>, url: string): Option<Turn> {
    if turns == [] then None else if turns[0].url == url then Some(turns[0]) else Lookup(turns[1..], url)
  }

  /** The last entry for a url, trimmed. */
  function Newest(more: seq<Turn>, url: string): Option<Turn> {
    if more == [] then None
    else
      var later := Newest(more[1..], url);
      if later.Some? then later
      else if Trim(more[0].url) == url && url != "" then Some(more[0].(url := url)) else None
  }

  lemma {:induction false} SetTurnLookup(turns: seq<Turn>, t: Turn, url: string)
    ensures Lookup(SetTurn(turns, t), url) == if t.url == url then Some(t) else Lookup(turns, url)
  {
    if turns == [] {
    } else {
      SetTurnLookup(turns[1..], t, url);
    }
  }

  lemma {:induction false} AddTurnsLookup(turns: seq<Turn>, more: seq<Turn>, url: string)
    ensures Lookup(AddTurns(turns, more), url) ==
      if Newest(more, url).Some? then Newest(more, url) else Lookup(turns, url)
    decreases |more|
  {
    if more == [] {
    } else {
      var t := more[0].(url := Trim(more[0].url));
      SetTurnLookup(turns, t, url);
      AddTurnsLookup(if t.url != "" then SetTurn(turns, t) else turns, more[1..], url);
    }
  }

  ghost predicate UrlsOnce(turns: seq<Turn>) {
    forall i, j :: 0 <= i < j < |turns| ==> turns[i].url != turns[j].url
  }

  lemma {:induction false} SetTurnOnce(turns: seq<Turn>, t: Turn)
    requires UrlsOnce(turns)
    ensures UrlsOnce(SetTurn(turns, t))
    ensures forall u :: u in SetTurn(turns, t) ==> u.url == t.url || u in turns
  {
    if turns == [] {
    } else {
      SetTurnOnce(turns[1..], t);
      var rest := SetTurn(turns[1..], t);
      if turns[0].url != t.url {
        forall j | 0 <= j < |rest| ensures rest[j].url != turns[0].url {
          assert rest[j] in rest;
        }
      }
    }
  }

  lemma {:induction false} AddTurnsOnce(turns: seq<Turn>, more: seq<Turn>)
    requires UrlsOnce(turns)
    ensures UrlsOnce(AddTurns(turns, more))
    decreases |more|
  {
    if more == [] {
    } else {
      var t := more[0].(url := Trim(more[0].url));
      SetTurnOnce(turns, t);
      AddTurnsOnce(if t.url != "" then SetTurn(turns, t) else turns, more[1..]);
    }
  }

  /** The union has each server any venue names, trimmed, once, and nothing blank; and each
      relay once, with the credentials named last. */
  lemma UnionMeans(venues: seq<Venue>, s: string)
    ensures var union := UnionServers(venues);
            && Once(union.signaling) && (s in union.signaling <==> Offers(AllSignaling(venues), s))
            && Once(union.stun) && (s in union.stun <==> Offers(AllStun(venues), s))
            && UrlsOnce(union.turn) && Lookup(union.turn, s) == Newest(AllTurns(venues), s)
  {
    UnionIsOneList(NO_SERVERS, venues);
    AddServersMembers([], AllSignaling(venues), s);
    AddServersMembers([], AllStun(venues), s);
    AddTurnsLookup([], AllTurns(venues), s);
    AddTurnsOnce([], AllTurns(venues));
  }

  method EffectiveServers(venues: seq<Venue>) returns (union: ServerSet)
    ensures union == UnionServers(venues)
  {
    var signaling: seq<string>, stun: seq<string>, turn: seq<Turn> := [], [], [];
    var i: nat := 0;
    assert venues[0..] == venues;
    while i < |venues|
      invariant i <= |venues|
      invariant AddVenues(ServerSet(signaling, stun, turn), venues[i..]) == UnionServers(venues)
    {
      assert venues[i..][1..] == venues[i + 1..];
      signaling := AddedServers(signaling, venues[i].signaling);
      stun := AddedServers(stun, venues[i].stun);
      turn := AddedTurns(turn, venues[i].turn);
      i := i + 1;
    }
    union := ServerSet(signaling, stun, turn);
  }

  method AddedServers(servers: seq<string>, more: seq<string>) returns (all: seq<string>)
    ensures all == AddServers(servers, more)
  {
    all := servers;
    var i: nat := 0;
    assert more[0..] == more;
    while i < |more|
      invariant i <= |more| && AddServers(all, more[i..]) == AddServers(servers, more)
    {
      assert more[i..][1..] == more[i + 1..];
      var s: string := Trim(more[i]);
      if s != "" && s !in all {
        all := all + [s];
      }
      i := i + 1;
    }
  }

  method AddedTurns(turns: seq<Turn>, more: seq<Turn>) returns (all: seq<Turn>)
    ensures all == AddTurns(turns, more)
  {
    all := turns;
    var i: nat := 0;
    assert more[0..] == more;
    while i < |more|
      invariant i <= |more| && AddTurns(all, more[i..]) == AddTurns(turns, more)
    {
      assert more[i..][1..] == more[i + 1..];
      var url: string := Trim(more[i].url);
      if url != "" {
        all := SetTurn(all, more[i].(url := url));
      }
      i := i + 1;
    }
  }

  // Importing what was exported

  function Imported(envs: seq<Envelope>): seq<Venue> {
    seq(|envs|, i requires 0 <= i < |envs| => VenueFromExport(envs[i]))
  }

  function ImportTurns(turns: seq<EnvelopeTurn>): seq<Turn> {
    seq(|turns|, i requires 0 <= i < |turns| => ImportTurn(turns[i]))
  }

  lemma {:induction false} NonBlankAdds(servers: seq<string>, more: seq<string>)
    ensures AddServers(servers, NonBlank(more)) == AddServers(servers, more)
    decreases |more|
  {
    if more == [] {
    } else {
      var rest := NonBlank(more[1..]);
      if Trim(more[0]) != "" {
        NonBlankAdds(AddOnce(servers, Trim(more[0])), more[1..]);
        assert ([more[0]] + rest)[1..] == rest;
      } else {
        NonBlankAdds(servers, more[1..]);
        assert [] + rest == rest;
      }
    }
  }

  lemma ImportTurnsFirst(t: EnvelopeTurn, rest: seq<EnvelopeTurn>)
    ensures ImportTurns([t] + rest) == [ImportTurn(t)] + ImportTurns(rest)
  {
  }

  lemma FirstTurn(turns: seq<Turn>)
    requires turns != []
    ensures var t, rest := turns[0], turns[1..];
            var env := EnvelopeTurn(t.url, Named(t.username), Named(t.credential));
            && ImportTurn(env) == t
            && ExportTurns(turns) == (if Trim(t.url) != "" then [env] + ExportTurns(rest) else ExportTurns(rest))
            && NonBlankTurns(turns) == (if Trim(t.url) != "" then [t] + NonBlankTurns(rest) else NonBlankTurns(rest))
  {
    assert [] + NonBlankTurns(turns[1..]) == NonBlankTurns(turns[1..]);
  }

  lemma {:induction false} ImportedTurnsKept(turns: seq<Turn>)
    ensures ImportTurns(ExportTurns(turns)) == NonBlankTurns(turns)
  {
    if turns == [] {
    } else {
      var t := turns[0];
      ImportedTurnsKept(turns[1..]);
      FirstTurn(turns);
      ImportTurnsFirst(EnvelopeTurn(t.url, Named(t.username), Named(t.credential)), ExportTurns(turns[1..]));
    }
  }

  lemma {:induction false} NonBlankTurnsAdd(turns: seq<Turn>, more: seq<Turn>)
    ensures AddTurns(turns, NonBlankTurns(more)) == AddTurns(turns, more)
    decreases |more|
  {
    if more == [] {
    } else {
      var t, rest := more[0], NonBlankTurns(more[1..]);
      if Trim(t.url) != "" {
        NonBlankTurnsAdd(SetTurn(turns, t.(url := Trim(t.url))), more[1..]);
        assert ([t] + rest)[1..] == rest;
      } else {
        NonBlankTurnsAdd(turns, more[1..]);
        assert [] + rest == rest;
      }
    }
  }

  lemma ImportAdds(known: ServerSet, env: Envelope, v: Venue)
    requires Carries(env, v) && !IsRemote(v)
    ensures AddVenue(known, VenueFromExport(env)) == AddVenue(known, v)
  {
    NonBlankAdds(known.signaling, v.signaling);
    NonBlankAdds(known.stun, v.stun);
    ImportedTurnsKept(v.turn);
    NonBlankTurnsAdd(known.turn, v.turn);
    assert VenueFromExport(env).turn == ImportTurns(ExportTurns(v.turn));
  }

  lemma ImportedFirst(env: Envelope, envs: seq<Envelope>)
    ensures Imported([env] + envs) == [VenueFromExport(env)] + Imported(envs)
  {
  }

  lemma AddFirst(known: ServerSet, v: Venue, venues: seq<Venue>)
    ensures AddVenues(known, [v] + venues) == AddVenues(AddVenue(known, v), venues)
  {
    assert ([v] + venues)[1..] == venues;
  }

  ghost predicate AllStatic(venues: seq<Venue>) {
    forall i :: 0 <= i < |venues| ==> !IsRemote(venues[i])
  }

  lemma RestCarries(envs: seq<Envelope>, venues: seq<Venue>)
    requires AllCarry(envs, venues) && AllStatic(venues) && venues != []
    ensures Carries(envs[0], venues[0]) && !IsRemote(venues[0])
    ensures AllCarry(envs[1..], venues[1..]) && AllStatic(venues[1..])
  {
    forall i | 0 <= i < |venues| - 1 ensures Carries(envs[1..][i], venues[1..][i]) && !IsRemote(venues[1..][i]) {
      assert Carries(envs[i + 1], venues[i + 1]) && !IsRemote(venues[i + 1]);
    }
  }

  lemma {:induction false} ImportsAdd(known: ServerSet, envs: seq<Envelope>, venues: seq<Venue>)
    requires AllCarry(envs, venues) && AllStatic(venues)
    ensures AddVenues(known, Imported(envs)) == AddVenues(known, venues)
    decreases |venues|
  {
    if venues == [] {
    } else {
      var v, rest := VenueFromExport(envs[0]), Imported(envs[1..]);
      RestCarries(envs, venues);
      ImportedFirst(envs[0], envs[1..]);
      AddFirst(known, v, rest);
      AddFirst(known, venues[0], venues[1..]);
      assert envs == [envs[0]] + envs[1..];
      assert venues == [venues[0]] + venues[1..];
      ImportAdds(known, envs[0], venues[0]);
      ImportsAdd(AddVenue(known, venues[0]), envs[1..], venues[1..]);
    }
  }

  /** Joining by an invite of static venues, a mesh ends up with the very servers it was
      shared with. */
  lemma InviteKeepsServers(codec: Codec, venues: seq<Venue>)
    requires ReadsBack(codec) && venues != [] && AllStatic(venues)
    ensures var decoded := DecodeInvite(codec, Base64Url.Encode(codec.write(InviteJson(venues))));
            decoded.Some? && UnionServers(Imported(decoded.value)) == UnionServers(venues)
  {
    InviteRoundTrip(codec, venues);
    var decoded := DecodeInvite(codec, Base64Url.Encode(codec.write(InviteJson(venues)))).value;
    ImportsAdd(NO_SERVERS, decoded, venues);
  }

  predicate NamesNoServer(v: Venue) {
    NonBlank(v.signaling) == [] && NonBlank(v.stun) == [] && NonBlankTurns(v.turn) == []
  }

  lemma {:induction false} AddsNothing(servers: seq<string>, more: seq<string>)
    ensures |AddServers(servers, more)| >= |servers|
    ensures AddServers([], more) == [] <==> NonBlank(more) == []
    decreases |more|
  {
    if more == [] {
    } else {
      AddsNothing(if Trim(more[0]) != "" then AddOnce(servers, Trim(more[0])) else servers, more[1..]);
      AddsNothing(AddOnce([], Trim(more[0])), more[1..]);
    }
  }

  lemma {:induction false} AddsNoTurn(turns: seq<Turn>, more: seq<Turn>)
    ensures |AddTurns(turns, more)| >= |turns|
    ensures AddTurns([], more) == [] <==> NonBlankTurns(more) == []
    decreases |more|
  {
    if more == [] {
    } else {
      var t := more[0].(url := Trim(more[0].url));
      SetTurnGrows(turns, t);
      AddsNoTurn(if t.url != "" then SetTurn(turns, t) else turns, more[1..]);
      AddsNoTurn(SetTurn([], t), more[1..]);
    }
  }

  lemma {:induction false} SetTurnGrows(turns: seq<Turn>, t: Turn)
    ensures |SetTurn(turns, t)| >= |turns|
  {
    if turns == [] {
    } else {
      SetTurnGrows(turns[1..], t);
    }
  }

  /** What an importer ends up with: the venue under its own label, or a stand-in for a blank
      one; by its url alone if it is remote, else with all its servers and relays that are not
      blank, as they were, credentials too. */
  ghost predicate ImportedAs(v: Venue, imported: Venue) {
    && imported.title == (if v.title == "" then "Imported venue" else v.title)
    && var remote := v.url.Some? && v.url.value != "";
    && (remote ==> imported.url == v.url && imported.signaling == imported.stun == [] && imported.turn == [])
    && (!remote ==>
          && imported.url == None && imported.signaling == NonBlank(v.signaling)
          && imported.stun == NonBlank(v.stun) && imported.turn == NonBlankTurns(v.turn))
  }

  lemma ImportKeepsVenue(v: Venue, env: Envelope)
    requires Carries(env, v)
    ensures ImportedAs(v, VenueFromExport(env))
  {
    ImportedTurnsKept(v.turn);
    assert VenueFromExport(env).turn == ImportTurns(OrEmpty(env.turn));
  }

  /** Joining by an invite, each venue arrives under its label, with its url or its servers. */
  lemma InviteKeepsVenues(codec: Codec, venues: seq<Venue>)
    requires ReadsBack(codec) && venues != []
    ensures var decoded := DecodeInvite(codec, Base64Url.Encode(codec.write(InviteJson(venues))));
            && decoded.Some? && |Imported(decoded.value)| == |venues|
            && forall i :: 0 <= i < |venues| ==> ImportedAs(venues[i], Imported(decoded.value)[i])
  {
    InviteRoundTrip(codec, venues);
    var decoded := DecodeInvite(codec, Base64Url.Encode(codec.write(InviteJson(venues)))).value;
    forall i | 0 <= i < |venues| ensures ImportedAs(venues[i], Imported(decoded)[i]) {
      assert Carries(decoded[i], venues[i]);
      ImportKeepsVenue(venues[i], decoded[i]);
    }
  }

  /** Importing an exported venue leaves its servers as they were exactly if it is static, or
      remote with none fetched: a remote one travels as its url alone. */
  lemma ImportKeepsServersIff(v: Venue, env: Envelope)
    requires Carries(env, v)
    ensures UnionServers([VenueFromExport(env)]) == UnionServers([v]) <==> !IsRemote(v) || NamesNoServer(v)
  {
    UnionOfOne(v);
    UnionOfOne(VenueFromExport(env));
    if IsRemote(v) {
      AddsNothing([], v.signaling);
      AddsNothing([], v.stun);
      AddsNoTurn([], v.turn);
      assert AddVenue(NO_SERVERS, VenueFromExport(env)) == NO_SERVERS;
    } else {
      ImportAdds(NO_SERVERS, env, v);
    }
  }

  lemma UnionOfOne(v: Venue)
    ensures UnionServers([v]) == AddVenue(NO_SERVERS, v)
  {
    assert [v][1..] == [];
    assert AddVenues(AddVenue(NO_SERVERS, v), [v][1..]) == AddVenue(NO_SERVERS, v);
  }
}
