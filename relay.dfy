/**
 * The visitor webhook handler (`POST /visitor/<location>`): look up the
 * location, read the form, authenticate, ignore everything but sign-ins,
 * copy the visitor's photo into the S3 bucket, submit the announcement to the
 * subreddit and, when an IRC channel is configured, announce the link there.
 *
 * Foreign code is passed in as functions (`Libraries`), what the network
 * answers as a record (`World`), and the calls the handler makes to the
 * outside services are returned as a record (`Calls`): each service is called
 * at most once per request, always in the order fetch, store, submit, chat.
 */
module Relay {
  import opened Base
  import opened Locations
  import Signature

  /** The process-wide settings read from the configuration file at start-up. */
  datatype Config = Config(
    apiKey: string,                    // shared secret of the check-in provider
    s3Bucket: string,
    locations: map<string, City>,      // the location table
    ircConfigured: bool)               // a "harold" section was present and wessex imported

  /**
   * The sign-in time as `toLocal` returns it. The value is opaque: nothing ties
   * its fields to the parsed UTC time or to the location's timezone, and the
   * handler only passes it on to the two templates.
   */
  datatype LocalTime = LocalTime(utcSeconds: int, zone: string)

  /** The library calls the handler makes, as total functions of their arguments. */
  datatype Libraries = Libraries(
    hmacSha256Hex: Signature.HmacHex,
    decodeEntry: string -> Option<map<string, string>>,      // json.loads of the "entry" field
    parseUtc: string -> Option<int>,                          // strptime with "%Y-%m-%d %H:%M:%S"
    toLocal: (int, string) -> Option<LocalTime>,              // UTC to the named pytz timezone
    formatTitle: (LocalTime, City, Option<string>) -> string, // link_format.format(...)
    formatMessage: (LocalTime, City, Option<string>, string) -> string) // message_format.format(...)

  /** What the board's submit call hands back: a plain link or a post object. */
  datatype Submission = Permalink(url: string) | Post(shortLink: string)

  /** The answers of the outside services for this request. */
  datatype World = World(
    photoStatus: Option<int>,          // HTTP status of the photo fetch; None when the fetch raises
    photoStored: bool,                 // the S3 write succeeded
    submission: Option<Submission>,    // None when the submit call raises
    chatDelivered: bool)               // the IRC message was sent without raising

  /** The object written to the bucket. */
  datatype StoredObject = StoredObject(bucket: string, key: string, contentType: string, acl: string)

  /** The arguments of the board's submit call: exactly one of text and url is given. */
  datatype PostRequest = PostRequest(title: string, text: Option<string>, url: Option<string>)

  /** The calls made to the outside services while handling one request. */
  datatype Calls = Calls(
    fetch: Option<string>,             // the photo URL requested
    store: Option<StoredObject>,
    submit: Option<PostRequest>,
    chat: Option<string>)              // the IRC message sent

  const NoCalls := Calls(None, None, None, None)

  datatype Failure =
    | UnknownLocation
    | MissingField(name: string)      // a form field is absent: abort(400)
    | BadSignature
    | MissingEntryKey(name: string)   // a key of the decoded entry is absent: KeyError, a 500
    | MalformedEntry
    | BadTimestamp
    | UnknownTimezone
    | FetchFailed
    | StoreFailed
    | SubmitFailed
    | ChatFailed

  /** The HTTP outcome: a 200 with a body, or an error status with its cause. */
  datatype Response = Reply(body: string) | Abort(status: nat, cause: Failure)

  /** The form fields the handler reads, in the order it reads them. */
  const FormFields: seq<string> := ["entry", "status", "timestamp", "token", "signature"]

  predicate FormComplete(form: map<string, string>)
  {
    forall f :: f in FormFields ==> f in form
  }

  /** The first form field, in reading order, that the request lacks. */
  function FirstMissing(form: map<string, string>): (f: string)
    requires !FormComplete(form)
    ensures f in FormFields && f !in form
    ensures forall k :: 0 <= k < |FormFields| && FormFields[k] == f ==>
      forall k' :: 0 <= k' < k ==> FormFields[k'] in form
  {
    if "entry" !in form then "entry"
    else if "status" !in form then "status"
    else if "timestamp" !in form then "timestamp"
    else if "token" !in form then "token"
    else "signature"
  }

  /** The request carries a signature made with the shared secret. */
  predicate Authentic(cfg: Config, libs: Libraries, form: map<string, string>)
    requires FormComplete(form)
  {
    Signature.IsAuthentic(libs.hmacSha256Hex, cfg.apiKey, form["token"], form["timestamp"], form["signature"])
  }

  /** The request passed every check that comes before any side effect. */
  predicate Admitted(cfg: Config, libs: Libraries, location: string, form: map<string, string>)
  {
    location in cfg.locations && FormComplete(form) && Authentic(cfg, libs, form) && form["status"] == "sign_in"
  }

  /** The fields of the decoded check-in entry, or none when it does not decode. */
  function EntryFields(libs: Libraries, entry: string): map<string, string>
  {
    if libs.decodeEntry(entry).Some? then libs.decodeEntry(entry).value else map[]
  }

  /** The entry's sign-in time parses as a UTC timestamp. */
  predicate TimestampParses(libs: Libraries, fields: map<string, string>)
  {
    "signed_in_time_utc" in fields && libs.parseUtc(fields["signed_in_time_utc"]).Some?
  }

  /** The sign-in time in the location's timezone, or None when it cannot be computed. */
  function ArrivalTime(libs: Libraries, city: City, fields: map<string, string>): Option<LocalTime>
  {
    if TimestampParses(libs, fields)
    then libs.toLocal(libs.parseUtc(fields["signed_in_time_utc"]).value, city.timezone)
    else None
  }

  /** The S3 object key of a visitor's photo: "<code>/<id>.jpg". */
  function ObjectKey(code: string, id: string): (key: string)
    ensures |key| == |code| + |id| + 5
    ensures key[..|code|] == code && key[|code|] == '/'
    ensures key[|code| + 1..|key| - 4] == id && key[|key| - 4..] == ".jpg"
  {
    code + "/" + id + ".jpg"
  }

  /** The public address of an object in the bucket. */
  function PublicUrl(bucket: string, key: string): (url: string)
    ensures |url| == 25 + |bucket| + |key|
    ensures url[..24] == "http://s3.amazonaws.com/" && url[|url| - |key|..] == key
    ensures url[24..24 + |bucket|] == bucket && url[24 + |bucket|] == '/'
  {
    "http://s3.amazonaws.com/" + bucket + "/" + key
  }

  /** Different visitors of slash-free locations get different object keys. */
  lemma ObjectKeyInjective(code1: string, id1: string, code2: string, id2: string)
    requires '/' !in code1 && '/' !in code2
    requires ObjectKey(code1, id1) == ObjectKey(code2, id2)
    ensures code1 == code2 && id1 == id2
  {
  }

  /** The handler's location table is the one the configuration's location entries build. */
  predicate ConfiguredFrom(cfg: Config, items: seq<(string, string)>)
  {
    LocationTable(items) == Ok(cfg.locations)
  }

  /**
   * With the table built from the configuration, every location the handler
   * accepts is a configured key, and its photos are filed under that key:
   * "<location>/<id>.jpg".
   */
  lemma ConfiguredObjectKey(cfg: Config, items: seq<(string, string)>, location: string, id: string)
    requires ConfiguredFrom(cfg, items) && location in cfg.locations
    ensures exists j :: 0 <= j < |items| && items[j].0 == location
    ensures ObjectKey(cfg.locations[location].code, id) == location + "/" + id + ".jpg"
  {
    LocationTableFacts(items);
  }

  /**
   * The text and url arguments of the submit call: a link post to the image
   * when there is one, otherwise a self post whose text is empty.
   */
  function PostArguments(imgUrl: Option<string>): (args: (Option<string>, Option<string>))
    ensures args.0.Some? != args.1.Some?
    ensures args.0 == Some("") <==> imgUrl.None?
    ensures args.1 == imgUrl
  {
    (if imgUrl.None? then Some("") else None, imgUrl)
  }

  /** The link the handler reports for a submission. */
  function CanonicalLink(s: Submission): string
  {
    match s
    case Permalink(url) => url
    case Post(shortLink) => shortLink
  }

  /** The photo fetched is the one the entry names. */
  predicate FetchRule(fields: map<string, string>, calls: Calls)
  {
    calls.fetch.Some? ==> "photo_url" in fields && calls.fetch == Some(fields["photo_url"])
  }

  /** The photo is stored only after a 200, as a public-read JPEG under "<code>/<id>.jpg". */
  predicate StoreRule(cfg: Config, world: World, code: string, fields: map<string, string>, calls: Calls)
  {
    calls.store.Some? ==>
      calls.fetch.Some? && world.photoStatus == Some(200) && "id" in fields
      && calls.store == Some(StoredObject(cfg.s3Bucket, ObjectKey(code, fields["id"]), "image/jpeg", "public-read"))
  }

  /** A link post to the stored photo after a 200, otherwise a self post whose text is empty. */
  predicate PostRule(cfg: Config, world: World, calls: Calls)
  {
    calls.submit.Some? ==>
      var post := calls.submit.value;
      && calls.fetch.Some?
      && (post.text.Some? != post.url.Some?)
      && (post.url.Some? <==> world.photoStatus == Some(200))
      && (post.text.Some? ==> post.text == Some("") && calls.store.None?)
      && (post.url.Some? ==> calls.store.Some? && world.photoStored
                             && post.url == Some(PublicUrl(cfg.s3Bucket, calls.store.value.key)))
  }

  /** The IRC message follows a submit that returned, and is sent exactly when a channel is configured. */
  predicate ChatRule(cfg: Config, world: World, calls: Calls)
  {
    && (calls.chat.Some? ==> calls.submit.Some? && world.submission.Some? && cfg.ircConfigured)
    && (calls.submit.Some? && world.submission.Some? && cfg.ircConfigured ==> calls.chat.Some?)
  }

  /**
   * A 200 reply comes only after a submit; once the submit returns, the reply is
   * its canonical link unless the IRC send raises, which is a 500; a submit that
   * raises is a 500.
   */
  predicate ReplyRule(cfg: Config, world: World, calls: Calls, resp: Response)
  {
    && (resp.Reply? ==> calls.submit.Some?)
    && (calls.submit.Some? && world.submission.Some? && (cfg.ircConfigured ==> world.chatDelivered) ==>
          resp == Reply(CanonicalLink(world.submission.value)))
    && (calls.submit.Some? && world.submission.Some? && cfg.ircConfigured && !world.chatDelivered ==>
          resp == Abort(500, ChatFailed))
    && (calls.submit.Some? && world.submission.None? ==> resp == Abort(500, SubmitFailed))
  }

  /**
   * The entry is decoded, its time converted and its photo_url read before any
   * call to the outside; each of these that fails is a 500 with no call made.
   */
  predicate EntryRule(libs: Libraries, city: City, entry: string, resp: Response, calls: Calls)
  {
    var fields := EntryFields(libs, entry);
    var date := ArrivalTime(libs, city, fields);
    && (libs.decodeEntry(entry).None? ==> resp == Abort(500, MalformedEntry) && calls == NoCalls)
    && (libs.decodeEntry(entry).Some? && !TimestampParses(libs, fields) ==>
          resp == Abort(500, BadTimestamp) && calls == NoCalls)
    && (TimestampParses(libs, fields) && date.None? ==> resp == Abort(500, UnknownTimezone) && calls == NoCalls)
    && (date.Some? && "photo_url" !in fields ==> resp == Abort(500, MissingEntryKey("photo_url")) && calls == NoCalls)
    && (date.Some? && "photo_url" in fields ==> calls.fetch == Some(fields["photo_url"]))
    && (calls != NoCalls ==> date.Some? && "photo_url" in fields)
  }

  /**
   * Once the photo is requested: a fetch that raises, a 200 for an entry without
   * an id and a failed write each end the request with a 500 before the submit;
   * otherwise the announcement is submitted.
   */
  predicate ArchiveRule(world: World, fields: map<string, string>, resp: Response, calls: Calls)
  {
    calls.fetch.Some? ==>
      && (world.photoStatus.None? ==> resp == Abort(500, FetchFailed) && calls.submit.None?)
      && (world.photoStatus == Some(200) && "id" !in fields ==>
            resp == Abort(500, MissingEntryKey("id")) && calls.submit.None? && calls.store.None?)
      && (world.photoStatus == Some(200) && "id" in fields && !world.photoStored ==>
            resp == Abort(500, StoreFailed) && calls.submit.None? && calls.store.Some?)
      && (world.photoStatus.Some? && (world.photoStatus == Some(200) ==> "id" in fields && world.photoStored) ==>
            calls.submit.Some?)
  }

  /**
   * The post's title and the IRC message are the templates applied to the local
   * sign-in time, the location and the visitor's name (and, for IRC, the link).
   */
  predicate ContentRule(libs: Libraries, world: World, city: City, fields: map<string, string>, calls: Calls)
  {
    var date := ArrivalTime(libs, city, fields);
    && (calls.submit.Some? ==>
          date.Some? && calls.submit.value.title == libs.formatTitle(date.value, city, VisitorName(fields)))
    && (calls.chat.Some? ==>
          date.Some? && world.submission.Some?
          && calls.chat == Some(libs.formatMessage(date.value, city, VisitorName(fields),
                                                   CanonicalLink(world.submission.value))))
  }

  /** Everything a sign-in does once the request has been admitted. */
  predicate SignInRules(cfg: Config, libs: Libraries, world: World, city: City, entry: string,
                        resp: Response, calls: Calls)
  {
    var fields := EntryFields(libs, entry);
    && EntryRule(libs, city, entry, resp, calls)
    && FetchRule(fields, calls)
    && ArchiveRule(world, fields, resp, calls)
    && StoreRule(cfg, world, city.code, fields, calls)
    && PostRule(cfg, world, calls)
    && ChatRule(cfg, world, calls)
    && ReplyRule(cfg, world, calls, resp)
    && ContentRule(libs, world, city, fields, calls)
  }

  /** The visitor handler: the checks that come before any call to the outside. */
  method Visitor(cfg: Config, libs: Libraries, world: World, location: string, form: map<string, string>)
    returns (resp: Response, calls: Calls)
    // the location is looked up first: an unknown one is a KeyError, whatever the form holds
    ensures location !in cfg.locations ==> resp == Abort(500, UnknownLocation) && calls == NoCalls
    ensures location in cfg.locations && !FormComplete(form) ==>
      resp == Abort(400, MissingField(FirstMissing(form))) && calls == NoCalls
    ensures location in cfg.locations && FormComplete(form) && !Authentic(cfg, libs, form) ==>
      resp == Abort(400, BadSignature) && calls == NoCalls
    ensures (location in cfg.locations && FormComplete(form) && Authentic(cfg, libs, form)
             && form["status"] != "sign_in") ==> resp == Reply("") && calls == NoCalls
    // nothing reaches the outside before the request is admitted
    ensures calls != NoCalls ==> Admitted(cfg, libs, location, form)
    ensures Admitted(cfg, libs, location, form) ==>
      SignInRules(cfg, libs, world, cfg.locations[location], form["entry"], resp, calls)
  {
    if location !in cfg.locations {
      return Abort(500, UnknownLocation), NoCalls;
    }
    var locInfo := cfg.locations[location];
    if "entry" !in form { return Abort(400, MissingField("entry")), NoCalls; }
    var entry := form["entry"];
    if "status" !in form { return Abort(400, MissingField("status")), NoCalls; }
    var status := form["status"];
    if "timestamp" !in form { return Abort(400, MissingField("timestamp")), NoCalls; }
    var timestamp := form["timestamp"];
    if "token" !in form { return Abort(400, MissingField("token")), NoCalls; }
    var token := form["token"];
    if "signature" !in form { return Abort(400, MissingField("signature")), NoCalls; }
    var signature := form["signature"];

    var verified := Signature.VerifyMessage(libs.hmacSha256Hex, cfg.apiKey, token, timestamp, signature);
    if !verified {
      return Abort(400, BadSignature), NoCalls;
    }
    if status != "sign_in" {
      return Reply(""), NoCalls;
    }
    resp, calls := SignIn(cfg, libs, world, locInfo, entry);
  }

  /** The rest of the handler for an admitted sign-in. */
  method SignIn(cfg: Config, libs: Libraries, world: World, locInfo: City, entry: string)
    returns (resp: Response, calls: Calls)
    ensures SignInRules(cfg, libs, world, locInfo, entry, resp, calls)
  {
    var decoded := libs.decodeEntry(entry);
    if decoded.None? {
      return Abort(500, MalformedEntry), NoCalls;
    }
    var fields := decoded.value;
    if "signed_in_time_utc" !in fields {
      return Abort(500, BadTimestamp), NoCalls;
    }
    var utc := libs.parseUtc(fields["signed_in_time_utc"]);
    if utc.None? {
      return Abort(500, BadTimestamp), NoCalls;
    }
    var date := libs.toLocal(utc.value, locInfo.timezone);
    if date.None? {
      return Abort(500, UnknownTimezone), NoCalls;
    }
    var visitorName := VisitorName(fields);

    var failure, imgUrl, fetch, store := ArchivePhoto(cfg, world, locInfo.code, fields);
    if failure.Some? {
      return Abort(500, failure.value), Calls(fetch, store, None, None);
    }
    var title := libs.formatTitle(date.value, locInfo, visitorName);
    var post, chat;
    resp, post, chat := Publish(cfg, libs, world, date.value, locInfo, visitorName, title, imgUrl);
    calls := Calls(fetch, store, Some(post), chat);
  }

  /** `entry.get("your_full_name")`: the visitor's name, or None when the entry has none. */
  function VisitorName(fields: map<string, string>): Option<string>
  {
    if "your_full_name" in fields then Some(fields["your_full_name"]) else None
  }

  /**
   * Copies the visitor's photo from the check-in provider into the bucket.
   * On a 200 the photo is stored and its public URL returned; on any other
   * status there is no image and nothing is stored.
   */
  method ArchivePhoto(cfg: Config, world: World, code: string, fields: map<string, string>)
    returns (failure: Option<Failure>, imgUrl: Option<string>, fetch: Option<string>, store: Option<StoredObject>)
    ensures "photo_url" !in fields ==> failure == Some(MissingEntryKey("photo_url")) && fetch.None?
    ensures "photo_url" in fields ==> fetch == Some(fields["photo_url"])
    ensures store.Some? ==> (fetch.Some? && world.photoStatus == Some(200) && "id" in fields
      && store == Some(StoredObject(cfg.s3Bucket, ObjectKey(code, fields["id"]), "image/jpeg", "public-read")))
    ensures failure.None? ==> fetch.Some? && world.photoStatus.Some? && (imgUrl.Some? <==> world.photoStatus == Some(200))
    ensures failure.None? && imgUrl.Some? ==>
      store.Some? && world.photoStored && imgUrl.value == PublicUrl(cfg.s3Bucket, store.value.key)
    ensures failure.None? && imgUrl.None? ==> store.None?
    ensures failure.Some? ==> imgUrl.None?
    // which failure ends the request, and that none does when every step succeeds
    ensures "photo_url" in fields && world.photoStatus.None? ==> failure == Some(FetchFailed) && store.None?
    ensures "photo_url" in fields && world.photoStatus == Some(200) && "id" !in fields ==>
      failure == Some(MissingEntryKey("id")) && store.None?
    ensures "photo_url" in fields && world.photoStatus == Some(200) && "id" in fields && !world.photoStored ==>
      failure == Some(StoreFailed) && store.Some?
    ensures ("photo_url" in fields && world.photoStatus.Some?
             && (world.photoStatus == Some(200) ==> "id" in fields && world.photoStored)) ==> failure.None?
  {
    if "photo_url" !in fields {
      return Some(MissingEntryKey("photo_url")), None, None, None;
    }
    fetch := Some(fields["photo_url"]);
    if world.photoStatus.None? {
      return Some(FetchFailed), None, fetch, None;
    }
    if world.photoStatus.value == 200 {
      if "id" !in fields {
        return Some(MissingEntryKey("id")), None, fetch, None;
      }
      var keyName := ObjectKey(code, fields["id"]);
      store := Some(StoredObject(cfg.s3Bucket, keyName, "image/jpeg", "public-read"));
      if !world.photoStored {
        return Some(StoreFailed), None, fetch, store;
      }
      imgUrl := Some(PublicUrl(cfg.s3Bucket, keyName));
    } else {
      imgUrl, store := None, None;
    }
    failure := None;
  }

  /**
   * Submits the announcement (a link post when there is an image, a self post
   * otherwise), normalises what the board returns into a link, and announces
   * that link on IRC when a channel is configured.
   */
  method Publish(cfg: Config, libs: Libraries, world: World, date: LocalTime, locInfo: City,
                 visitorName: Option<string>, title: string, imgUrl: Option<string>)
    returns (resp: Response, post: PostRequest, chat: Option<string>)
    ensures post.title == title && post.url == imgUrl
    ensures post.text.Some? != post.url.Some? && (post.text.Some? ==> post.text == Some(""))
    ensures world.submission.None? ==> resp == Abort(500, SubmitFailed) && chat.None?
    ensures chat.Some? <==> world.submission.Some? && cfg.ircConfigured
    ensures chat.Some? ==>
      chat == Some(libs.formatMessage(date, locInfo, visitorName, CanonicalLink(world.submission.value)))
    ensures world.submission.Some? && (cfg.ircConfigured ==> world.chatDelivered) ==>
      resp == Reply(CanonicalLink(world.submission.value))
    ensures world.submission.Some? && cfg.ircConfigured && !world.chatDelivered ==> resp == Abort(500, ChatFailed)
    ensures resp.Reply? ==> world.submission.Some?
  {
    // a self post with empty text when there is no image
    var (text, url) := PostArguments(imgUrl);
    post := PostRequest(title, text, url);
    if world.submission.None? {
      return Abort(500, SubmitFailed), post, None;
    }
    var link := CanonicalLink(world.submission.value);

    chat := None;
    if cfg.ircConfigured {
      var message := libs.formatMessage(date, locInfo, visitorName, link);
      chat := Some(message);
      if !world.chatDelivered {
        return Abort(500, ChatFailed), post, chat;
      }
    }
    resp := Reply(link);
  }
}
