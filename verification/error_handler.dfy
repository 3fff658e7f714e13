/** The bot's error routing (src/telegram_interface/error_handler.py):
    which messages `default_error_handler` sends for an error, and the
    JSON encoder hook that blanks the Medicover client.

    The rendering of `context.user_data` by `json.dumps` and the formatted
    traceback are inputs. `str.format` and `html.escape` are modelled,
    because what the handler sends depends on them. */
module ErrorHandler {
  import opened Wrappers

  // ---------------------------------------------------------------------
  // html.escape
  // ---------------------------------------------------------------------

  function EscapeChar(c: char): string {
    if c == '&' then "&amp;"
    else if c == '<' then "&lt;"
    else if c == '>' then "&gt;"
    else if c == '"' then "&quot;"
    else if c == '\'' then "&#x27;"
    else [c]
  }

  /** The escape of one character holds no markup character, and a brace
      only when it is one. */
  lemma EscapeCharFacts(c: char)
    ensures var e := EscapeChar(c);
      && '<' !in e && '>' !in e && '"' !in e && '\'' !in e
      && ('{' in e <==> c == '{') && ('}' in e <==> c == '}') && |e| >= 1
  {
  }

  /** A character is in a non-empty string when it is its first or in the
      rest. */
  lemma InHeadTail(s: string, x: char)
    requires s != []
    ensures x in s <==> x == s[0] || x in s[1..]
  {
    assert s == [s[0]] + s[1..];
  }

  /** `html.escape(s)` with `quote=True`. */
  function Escape(s: string): (r: string)
    ensures '<' !in r && '>' !in r && '"' !in r && '\'' !in r
    ensures ('{' in r <==> '{' in s) && ('}' in r <==> '}' in s)
    ensures |r| >= |s|
  {
    if s == [] then []
    else
      EscapeCharFacts(s[0]);
      InHeadTail(s, '{');
      InHeadTail(s, '}');
      EscapeChar(s[0]) + Escape(s[1..])
  }

  predicate StartsWith(t: string, p: string) {
    |p| <= |t| && t[..|p|] == p
  }

  /** The inverse of `Escape`: the five character references back to
      their characters. */
  function Unescape(t: string): string
    decreases |t|
  {
    if t == [] then []
    else if t[0] != '&' then [t[0]] + Unescape(t[1..])
    else if StartsWith(t, "&amp;") then "&" + Unescape(t[5..])
    else if StartsWith(t, "&lt;") then "<" + Unescape(t[4..])
    else if StartsWith(t, "&gt;") then ">" + Unescape(t[4..])
    else if StartsWith(t, "&quot;") then "\"" + Unescape(t[6..])
    else if StartsWith(t, "&#x27;") then "'" + Unescape(t[6..])
    else "&" + Unescape(t[1..])
  }

  /** Unescaping undoes the escape of one character. */
  lemma UnescapeChar(c: char, e: string)
    ensures Unescape(EscapeChar(c) + e) == [c] + Unescape(e)
  {
    var t := EscapeChar(c) + e;
    if c == '&' {
      assert t[..5] == "&amp;" && t[5..] == e;
      assert Unescape(t) == "&" + Unescape(e);
    } else if c == '<' {
      assert t[..4] == "&lt;" && t[4..] == e;
      assert !StartsWith(t, "&amp;") by { assert t[1] == 'l'; }
      assert Unescape(t) == "<" + Unescape(e);
    } else if c == '>' {
      assert t[..4] == "&gt;" && t[4..] == e;
      assert !StartsWith(t, "&amp;") && !StartsWith(t, "&lt;") by { assert t[1] == 'g'; }
      assert Unescape(t) == ">" + Unescape(e);
    } else if c == '"' {
      assert t[..6] == "&quot;" && t[6..] == e;
      assert !StartsWith(t, "&amp;") && !StartsWith(t, "&lt;") && !StartsWith(t, "&gt;") by { assert t[1] == 'q'; }
      assert Unescape(t) == "\"" + Unescape(e);
    } else if c == '\'' {
      assert t[..6] == "&#x27;" && t[6..] == e;
      assert !StartsWith(t, "&amp;") && !StartsWith(t, "&lt;") && !StartsWith(t, "&gt;") && !StartsWith(t, "&quot;")
        by { assert t[1] == '#'; }
      assert Unescape(t) == "'" + Unescape(e);
    } else {
      assert t[0] == c && t[1..] == e;
    }
  }

  /** Escaping loses nothing: the text the developer reads is the user
      data and traceback exactly. */
  lemma {:induction false} EscapeRoundTrip(s: string)
    ensures Unescape(Escape(s)) == s
    decreases |s|
  {
    if s != [] {
      EscapeRoundTrip(s[1..]);
      UnescapeChar(s[0], Escape(s[1..]));
      assert [s[0]] + s[1..] == s;
    }
  }

  // ---------------------------------------------------------------------
  // str.format with one keyword argument
  // ---------------------------------------------------------------------

  function Prepend(p: string, o: Option<string>): Option<string> {
    match o
    case None => None
    case Some(s) => Some(p + s)
  }

  /** The first `}` at or after position `i`. */
  function CloseAt(t: string, i: nat): (r: Option<nat>)
    decreases |t| - i
    ensures r.Some? ==> i <= r.value < |t| && t[r.value] == '}' && forall k :: i <= k < r.value ==> t[k] != '}'
    ensures r.None? ==> forall k :: i <= k < |t| ==> t[k] != '}'
  {
    if i >= |t| then None else if t[i] == '}' then Some(i) else CloseAt(t, i + 1)
  }

  /** `t.format(**{name: value})`, or `None` where Python raises: a
      replacement field other than `{name}` (a `KeyError`, or an
      `IndexError` for `{}`), a lone `}` or an unclosed `{` (a
      `ValueError`). `{{` and `}}` stand for single braces. */
  function Format(t: string, name: string, value: string): Option<string>
    decreases |t|
  {
    if t == [] then Some([])
    else if t[0] == '{' && |t| >= 2 && t[1] == '{' then Prepend("{", Format(t[2..], name, value))
    else if t[0] == '{' then
      match CloseAt(t, 1)
      case None => None
      case Some(j) => if t[1..j] == name then Prepend(value, Format(t[j + 1..], name, value)) else None
    else if t[0] == '}' && |t| >= 2 && t[1] == '}' then Prepend("}", Format(t[2..], name, value))
    else if t[0] == '}' then None
    else Prepend([t[0]], Format(t[1..], name, value))
  }

  predicate NoBraces(s: string) {
    '{' !in s && '}' !in s
  }

  /** Text without braces passes through `format` unchanged. */
  lemma {:induction false} FormatPlain(s: string, rest: string, name: string, value: string)
    requires NoBraces(s)
    ensures Format(s + rest, name, value) == Prepend(s, Format(rest, name, value))
    decreases |s|
  {
    if s != [] {
      assert (s + rest)[0] == s[0];
      assert (s + rest)[1..] == s[1..] + rest;
      FormatPlain(s[1..], rest, name, value);
      match Format(rest, name, value) {
        case None =>
        case Some(x) => assert [s[0]] + (s[1..] + x) == s + x;
      }
    } else {
      assert s + rest == rest;
      match Format(rest, name, value) {
        case None =>
        case Some(x) => assert s + x == x;
      }
    }
  }

  /** The field `{name}` is replaced by the value. */
  lemma FormatField(name: string, value: string, rest: string)
    requires name != [] && name[0] != '{' && '}' !in name
    ensures Format("{" + name + "}" + rest, name, value) == Prepend(value, Format(rest, name, value))
  {
    var t := "{" + name + "}" + rest;
    assert t[1..|name| + 1] == name;
    assert t[|name| + 1] == '}';
    assert forall k :: 1 <= k < |name| + 1 ==> t[k] == name[k - 1];
    assert CloseAt(t, 1) == Some(|name| + 1);
    assert t[|name| + 2..] == rest;
  }

  // ---------------------------------------------------------------------
  // The handler
  // ---------------------------------------------------------------------

  /** The error in `context.error`. `KeyError(None)` is a `KeyError`
      without arguments; `NetworkError` covers its subclasses. */
  datatype ErrorKind = NetworkError | KeyError(key: Option<string>) | OtherError

  /** `update`: `None`, or an update with its effective chat id, if any. */
  datatype Update = NoUpdate | WithUpdate(chat: Option<int>)

  /** What `json.dumps(context.user_data, indent=4, cls=...)` does: there
      is no user data, it renders as the given text, or the data holds an
      object JSON cannot encode and the encoder's `default` is called. */
  datatype UserDataView = NoUserData | Rendered(json: string) | Unserializable

  datatype Action = ToDeveloper(text: string) | ToChat(chatId: int, text: string)

  /** Why the handler itself raises. */
  datatype HandlerError = EncoderTypeError | FormatFailed | NoKeyArgument | NoEffectiveChat

  datatype HandlerOutcome = Sent(actions: seq<Action>) | Raised(error: HandlerError)

  const FieldName: string := "base_error_message"
  const UpdateHead: string := "An exception was raised while handling an update"
  const GenericHead: string := "An error has occurred."
  const StartText: string := "The bot has not been initialized properly. Please run the /start command."

  function KeyErrorHead(key: string): string {
    "KeyError: An error has occurred. Missing '" + key + "' key in user data."
  }

  /** `pretty_user_data`, or `None` when the encoder raises. */
  function PrettyUserData(v: UserDataView): (r: Option<string>)
    ensures v.NoUserData? ==> r == Some("null")
    ensures v.Unserializable? <==> r.None?
  {
    match v
    case NoUserData => Some("null")
    case Rendered(j) => Some(j)
    case Unserializable => None
  }

  /** The text after the head line, as the source writes it. */
  function Details(pretty: string, tb: string): string {
    "\n<pre>context.user_data = " + UserDataOnwards(pretty, tb)
  }

  /** The details from the escaped user data on. */
  function UserDataOnwards(pretty: string, tb: string): string {
    Escape(pretty) + "</pre>\n\n<pre>" + Escape(tb) + "</pre>"
  }

  /** `base_message`: the `{base_error_message}` field and the details. */
  function Template(pretty: string, tb: string): string {
    "{" + FieldName + "}" + Details(pretty, tb)
  }

  /** A developer message as the source builds it: the whole template
      goes through `format`. */
  function DevMessageAsWritten(head: string, pretty: string, tb: string): Option<string> {
    Format(Template(pretty, tb), FieldName, head)
  }

  /** A developer message with only the head line substituted. */
  function DevMessage(head: string, pretty: string, tb: string): (m: string)
    ensures StartsWith(m, head + "\n<pre>context.user_data = ")
  {
    head + Details(pretty, tb)
  }

  /** The routing of `default_error_handler`, with `send` building the
      developer messages (`None`: building it raised). */
  function Route(kind: ErrorKind, update: Update, user: UserDataView, tb: string,
                 send: string -> Option<string>): HandlerOutcome
  {
    if kind.NetworkError? then Sent([])
    else if user.Unserializable? then Raised(EncoderTypeError)
    else if update.NoUpdate? then
      match send(UpdateHead)
      case None => Raised(FormatFailed)
      case Some(m) => Sent([ToDeveloper(m)])
    else if kind.KeyError? then
      if kind.key.None? then Raised(NoKeyArgument)
      else if kind.key.value == "language" then
        if update.chat.None? then Raised(NoEffectiveChat)
        else Sent([ToChat(update.chat.value, StartText)])
      else
        match send(KeyErrorHead(kind.key.value))
        case None => Raised(FormatFailed)
        case Some(first) =>
          match send(GenericHead)
          case None => Raised(FormatFailed)
          case Some(second) => Sent([ToDeveloper(first), ToDeveloper(second)])
    else
      match send(GenericHead)
      case None => Raised(FormatFailed)
      case Some(m) => Sent([ToDeveloper(m)])
  }

  /** `default_error_handler` as written. */
  function DefaultErrorHandlerAsWritten(kind: ErrorKind, update: Update, user: UserDataView, tb: string): HandlerOutcome {
    var pretty := PrettyUserData(user).GetOr("");
    Route(kind, update, user, tb, head => DevMessageAsWritten(head, pretty, tb))
  }

  /** `default_error_handler` with only the head line formatted. */
  function DefaultErrorHandler(kind: ErrorKind, update: Update, user: UserDataView, tb: string): HandlerOutcome {
    var pretty := PrettyUserData(user).GetOr("");
    Route(kind, update, user, tb, head => Some(DevMessage(head, pretty, tb)))
  }

  /** How `json.dumps(d, indent=4)` of a dict begins: `{}` when it is
      empty, `{` and a line break otherwise. */
  predicate DictShaped(json: string) {
    |json| >= 2 && json[0] == '{' && (json[1] == '}' || json[1] == '\n')
  }

  /** An empty field, or one that starts on a new line, names no
      keyword argument. */
  lemma FieldFails(t: string, value: string)
    requires |t| >= 2 && t[0] == '{' && (t[1] == '}' || t[1] == '\n')
    ensures Format(t, FieldName, value) == None
  {
    match CloseAt(t, 1) {
      case None =>
      case Some(j) =>
        if j > 1 {
          assert t[1..j][0] == '\n';
        }
    }
  }

  /** Escaping keeps how a rendered dict begins. */
  lemma EscapeDictStart(json: string)
    requires DictShaped(json)
    ensures var e := Escape(json); |e| >= 2 && e[0] == '{' && e[1] == json[1]
  {
    assert json[1..][1..] == json[2..];
    assert EscapeChar(json[0]) == ['{'];
    assert EscapeChar(json[1]) == [json[1]];
    assert Escape(json) == ['{'] + ([json[1]] + Escape(json[2..]));
  }

  /** The template splits into the field, the plain line start, and the
      escaped user data onwards. */
  lemma TemplateParts(json: string, tb: string)
    ensures Template(json, tb) == "{" + FieldName + "}" + ("\n<pre>context.user_data = " + UserDataOnwards(json, tb))
  {
  }

  /** The escaped user data onwards begins as the rendered dict does. */
  lemma OnwardsStart(json: string, tb: string)
    requires DictShaped(json)
    ensures var t := UserDataOnwards(json, tb); |t| >= 2 && t[0] == '{' && t[1] == json[1]
  {
    EscapeDictStart(json);
  }

  /** The text between the field and the user data has no braces. */
  lemma LineStartPlain()
    ensures NoBraces("\n<pre>context.user_data = ")
  {
  }

  /** As written, the braces of rendered user data are read as a
      replacement field, so `format` raises. */
  lemma AsWrittenFormatFails(head: string, json: string, tb: string)
    requires DictShaped(json)
    ensures DevMessageAsWritten(head, json, tb) == None
  {
    var prefix := "\n<pre>context.user_data = ";
    var rest := UserDataOnwards(json, tb);
    OnwardsStart(json, tb);
    FieldFails(rest, head);
    LineStartPlain();
    FormatPlain(prefix, rest, FieldName, head);
    TemplateParts(json, tb);
    FormatField(FieldName, head, prefix + rest);
  }

  /** The keyword the handler passes is a plain field name. */
  lemma FieldNameIsPlain()
    ensures FieldName != [] && FieldName[0] != '{' && '}' !in FieldName
  {
  }

  /** Text joined from brace-free parts is brace-free. */
  lemma NoBracesJoin(a: string, b: string)
    requires NoBraces(a) && NoBraces(b)
    ensures NoBraces(a + b)
  {
  }

  /** The details hold no brace when the user data and the traceback hold
      none. */
  lemma DetailsNoBraces(pretty: string, tb: string)
    requires NoBraces(pretty) && NoBraces(tb)
    ensures NoBraces(Details(pretty, tb))
  {
    var l1, l2, l3 := "\n<pre>context.user_data = ", "</pre>\n\n<pre>", "</pre>";
    assert NoBraces(l1) && NoBraces(l2) && NoBraces(l3);
    NoBracesJoin(Escape(pretty), l2);
    NoBracesJoin(Escape(pretty) + l2, Escape(tb));
    NoBracesJoin(Escape(pretty) + l2 + Escape(tb), l3);
    NoBracesJoin(l1, UserDataOnwards(pretty, tb));
  }

  /** Without braces in the user data and the traceback, the source's
      messages are the intended ones. */
  lemma AsWrittenAgreesWithoutBraces(head: string, pretty: string, tb: string)
    requires NoBraces(pretty) && NoBraces(tb)
    ensures DevMessageAsWritten(head, pretty, tb) == Some(DevMessage(head, pretty, tb))
  {
    var d := Details(pretty, tb);
    DetailsNoBraces(pretty, tb);
    FieldNameIsPlain();
    FormatField(FieldName, head, d);
    assert d + [] == d;
    FormatPlain(d, [], FieldName, head);
    assert Format(d, FieldName, head) == Some(d);
  }

  /** Without braces in the rendered user data and the traceback, the
      source's handler does exactly what the corrected one does, on every
      path: so everything proved below about `DefaultErrorHandler` holds
      for the source too, e.g. when there is no user data ("null"). */
  lemma AsWrittenHandlerAgrees(kind: ErrorKind, update: Update, user: UserDataView, tb: string)
    requires NoBraces(PrettyUserData(user).GetOr("")) && NoBraces(tb)
    ensures DefaultErrorHandlerAsWritten(kind, update, user, tb) == DefaultErrorHandler(kind, update, user, tb)
  {
    var pretty := PrettyUserData(user).GetOr("");
    var asWritten := head => DevMessageAsWritten(head, pretty, tb);
    var corrected := head => Some(DevMessage(head, pretty, tb));
    AsWrittenAgreesWithoutBraces(UpdateHead, pretty, tb);
    AsWrittenAgreesWithoutBraces(GenericHead, pretty, tb);
    if kind.KeyError? && kind.key.Some? {
      AsWrittenAgreesWithoutBraces(KeyErrorHead(kind.key.value), pretty, tb);
    }
    RouteAgrees(kind, update, user, tb, asWritten, corrected);
  }

  /** The routing only looks at the messages built for the heads it uses. */
  lemma RouteAgrees(kind: ErrorKind, update: Update, user: UserDataView, tb: string,
                    f: string -> Option<string>, g: string -> Option<string>)
    requires f(UpdateHead) == g(UpdateHead) && f(GenericHead) == g(GenericHead)
    requires kind.KeyError? && kind.key.Some? ==> f(KeyErrorHead(kind.key.value)) == g(KeyErrorHead(kind.key.value))
    ensures Route(kind, update, user, tb, f) == Route(kind, update, user, tb, g)
  {
  }

  /** The source's handler raises instead of reporting whenever there is
      user data and a developer message is due: for an empty
      `context.user_data`, `json.dumps` gives `{}`. */
  lemma AsWrittenRaisesOnUserData(kind: ErrorKind, update: Update, json: string, tb: string)
    requires DictShaped(json)
    requires !kind.NetworkError?
    requires update.NoUpdate? || kind == OtherError || (kind.KeyError? && kind.key.Some? && kind.key.value != "language")
    ensures DefaultErrorHandlerAsWritten(kind, update, Rendered(json), tb) == Raised(FormatFailed)
    ensures DefaultErrorHandler(kind, update, Rendered(json), tb).Sent?
    ensures DefaultErrorHandlerAsWritten(OtherError, WithUpdate(Some(1)), Rendered("{}"), tb) == Raised(FormatFailed)
  {
    AsWrittenHandlerRaises(kind, update, json, tb);
    CorrectedHandlerSends(kind, update, Rendered(json), tb);
    AsWrittenHandlerRaises(OtherError, WithUpdate(Some(1)), "{}", tb);
  }

  /** Every path that formats a developer message raises when the user
      data renders as a dict. */
  lemma AsWrittenHandlerRaises(kind: ErrorKind, update: Update, json: string, tb: string)
    requires DictShaped(json)
    requires !kind.NetworkError?
    requires update.NoUpdate? || kind == OtherError || (kind.KeyError? && kind.key.Some? && kind.key.value != "language")
    ensures DefaultErrorHandlerAsWritten(kind, update, Rendered(json), tb) == Raised(FormatFailed)
  {
    if update.NoUpdate? {
      AsWrittenFormatFails(UpdateHead, json, tb);
    } else if kind == OtherError {
      AsWrittenFormatFails(GenericHead, json, tb);
    } else {
      AsWrittenFormatFails(KeyErrorHead(kind.key.value), json, tb);
    }
  }

  /** The corrected handler sends on those same paths. */
  lemma CorrectedHandlerSends(kind: ErrorKind, update: Update, user: UserDataView, tb: string)
    requires !kind.NetworkError? && !user.Unserializable?
    requires update.NoUpdate? || kind == OtherError || (kind.KeyError? && kind.key.Some? && kind.key.value != "language")
    ensures DefaultErrorHandler(kind, update, user, tb).Sent?
  {
  }

  /** A network error is dropped without sending anything. */
  lemma NetworkErrorSendsNothing(update: Update, user: UserDataView, tb: string)
    ensures DefaultErrorHandler(NetworkError, update, user, tb) == Sent([])
    ensures DefaultErrorHandlerAsWritten(NetworkError, update, user, tb) == Sent([])
  {
  }

  /** Without an update, exactly one developer message is sent, headed
      "An exception was raised while handling an update", whatever the
      error, a `KeyError` included. */
  lemma NoUpdateOneDeveloperMessage(kind: ErrorKind, user: UserDataView, tb: string)
    requires !kind.NetworkError? && !user.Unserializable?
    ensures var out := DefaultErrorHandler(kind, NoUpdate, user, tb);
      out.Sent? && |out.actions| == 1 && out.actions[0].ToDeveloper?
      && StartsWith(out.actions[0].text, UpdateHead + "\n")
  {
    var m := DevMessage(UpdateHead, PrettyUserData(user).GetOr(""), tb);
    var long := UpdateHead + "\n<pre>context.user_data = ";
    assert long[..|UpdateHead + "\n"|] == UpdateHead + "\n";
    assert m[..|UpdateHead + "\n"|] == m[..|long|][..|UpdateHead + "\n"|];
  }

  /** A missing "language" key sends the /start hint to the user's chat
      and nothing to the developer. */
  lemma MissingLanguageAsksForStart(chat: int, user: UserDataView, tb: string)
    requires !user.Unserializable?
    ensures DefaultErrorHandler(KeyError(Some("language")), WithUpdate(Some(chat)), user, tb)
         == Sent([ToChat(chat, StartText)])
    ensures DefaultErrorHandlerAsWritten(KeyError(Some("language")), WithUpdate(Some(chat)), user, tb)
         == Sent([ToChat(chat, StartText)])
  {
  }

  /** Any other missing key sends a developer message naming the key, then
      the generic one. */
  lemma OtherKeyTwoMessages(key: string, update: Update, user: UserDataView, tb: string)
    requires key != "language" && update.WithUpdate? && !user.Unserializable?
    ensures var out := DefaultErrorHandler(KeyError(Some(key)), update, user, tb);
      var pretty := PrettyUserData(user).value;
      out == Sent([ToDeveloper(DevMessage(KeyErrorHead(key), pretty, tb)),
                   ToDeveloper(DevMessage(GenericHead, pretty, tb))])
  {
  }

  /** Any other error with an update sends one generic developer message. */
  lemma OtherErrorOneMessage(update: Update, user: UserDataView, tb: string)
    requires update.WithUpdate? && !user.Unserializable?
    ensures DefaultErrorHandler(OtherError, update, user, tb)
         == Sent([ToDeveloper(DevMessage(GenericHead, PrettyUserData(user).value, tb))])
  {
  }

  /** User data the encoder has to handle makes the handler raise before
      sending anything, unless the error is a network error. */
  lemma UnserializableUserDataRaises(kind: ErrorKind, update: Update, tb: string)
    ensures kind.NetworkError? ==> DefaultErrorHandler(kind, update, Unserializable, tb) == Sent([])
    ensures !kind.NetworkError? ==> DefaultErrorHandler(kind, update, Unserializable, tb) == Raised(EncoderTypeError)
  {
  }

  // ---------------------------------------------------------------------
  // SkipMedicoverClientEncoder
  // ---------------------------------------------------------------------

  /** The JSON values user data holds; `Object` is one JSON cannot encode. */
  datatype JsonValue = JsonNull | JsonBool(b: bool) | JsonInt(i: int) | JsonString(s: string) | Object(typeName: string)

  const ClientKey: string := "medicover_client"

  /** The user data object handed to the encoder. */
  class UserData {
    var entries: map<string, JsonValue>

    constructor(entries: map<string, JsonValue>)
      ensures this.entries == entries
    {
      this.entries := entries;
    }

    method Set(key: string, value: JsonValue)
      modifies this
      ensures entries == old(entries)[key := value]
    {
      entries := entries[key := value];
    }
  }

  /** What `JSONEncoder.default` does: it always raises `TypeError`. */
  datatype EncodeResult = TypeErrorRaised(typeName: string)

  /** `SkipMedicoverClientEncoder.default`: a deep copy with the client
      set to `None`, then the base class's `default`, which raises. */
  method EncoderDefault(obj: UserData) returns (result: EncodeResult, copy: UserData)
    ensures fresh(copy)
    ensures copy.entries == obj.entries[ClientKey := JsonNull]
    ensures ClientKey in copy.entries && copy.entries[ClientKey] == JsonNull
    ensures forall k :: k in obj.entries && k != ClientKey ==> k in copy.entries && copy.entries[k] == obj.entries[k]
    ensures obj.entries == old(obj.entries)
    ensures result == TypeErrorRaised("UserData")
  {
    copy := new UserData(obj.entries);
    copy.Set(ClientKey, JsonNull);
    result := TypeErrorRaised("UserData");
  }
}
