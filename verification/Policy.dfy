// A queue's access policy: the grant that lets a topic deliver into the queue is merged into the
// operator's document. JSON is a value here; parsing and printing it are not part of this model.
module Policy {
  import opened Basics
  import opened Names

  const SNS_SERVICE := "sns.amazonaws.com"
  const SEND_MESSAGE := "sqs:SendMessage"
  const ARN_CONDITIONS := ["ArnEquals", "ArnLike"]

  datatype Json =
    | Null
    | Boolean(truth: bool)
    | Number(digits: string)
    | Str(text: string)
    | List(items: seq<Json>)
    | Object(fields: map<string, Json>)

  /** The policy text a queue holds: none or blank, text that is no JSON, or a value. */
  datatype Document = Absent | Garbage | Parsed(policy: Json)

  datatype Unmergeable = NotJson | NotAnObject | NotAStatement

  // ---------------------------------------------------------------------------------------------
  // What a statement grants

  function Get(value: Option<Json>, field: string): Option<Json>
  {
    if value.Some? && value.value.Object? && field in value.value.fields then Some(value.value.fields[field]) else None
  }

  /** Single strings and lists are read alike; anything else, and what is no string in a list, is passed over. */
  predicate Holds(element: Option<Json>, wanted: string -> bool)
  {
    match element
    case Some(Str(text)) => wanted(text)
    case Some(List(items)) => exists i :: 0 <= i < |items| && items[i].Str? && wanted(items[i].text)
    case _ => false
  }

  predicate PinsSource(statement: Json, topicArn: string)
  {
    exists i :: 0 <= i < |ARN_CONDITIONS|
      && Holds(Get(Get(Get(Some(statement), "Condition"), ARN_CONDITIONS[i]), "aws:SourceArn"), arn => arn == topicArn)
  }

  predicate Grants(statement: Json, topicArn: string)
  {
    && statement.Object?
    && Get(Some(statement), "Effect") == Some(Str("Allow"))
    && Holds(Get(Get(Some(statement), "Principal"), "Service"), service => service == SNS_SERVICE)
    && Holds(Get(Some(statement), "Action"), action => ToLower(action) == ToLower(SEND_MESSAGE))
    && PinsSource(statement, topicArn)
  }

  predicate Granted(statements: seq<Json>, topicArn: string)
  {
    exists i :: 0 <= i < |statements| && Grants(statements[i], topicArn)
  }

  /** The statement added for a topic; `sid` derives its id. */
  function Grant(sid: string -> string, queueArn: string, topicArn: string): Json
  {
    Object(map[
      "Sid" := Str(sid(topicArn)),
      "Effect" := Str("Allow"),
      "Principal" := Object(map["Service" := Str(SNS_SERVICE)]),
      "Action" := Str(SEND_MESSAGE),
      "Resource" := Str(queueArn),
      "Condition" := Object(map["ArnEquals" := Object(map["aws:SourceArn" := Str(topicArn)])])])
  }

  /** A topic's statement grants that topic, and no other. */
  lemma GrantIsForOneTopic(sid: string -> string, queueArn: string, topicArn: string, other: string)
    ensures Grants(Grant(sid, queueArn, topicArn), other) <==> topicArn == other
  {
    var grant := Grant(sid, queueArn, topicArn);
    var condition := Get(Some(grant), "Condition");
    assert Get(Get(condition, ARN_CONDITIONS[0]), "aws:SourceArn") == Some(Str(topicArn));
    assert Get(condition, ARN_CONDITIONS[1]) == None;
    assert Get(Get(Some(grant), "Principal"), "Service") == Some(Str(SNS_SERVICE));
    assert Get(Some(grant), "Action") == Some(Str(SEND_MESSAGE));
    assert Get(Some(grant), "Effect") == Some(Str("Allow"));
  }

  // ---------------------------------------------------------------------------------------------
  // One merge

  /** The document's value; a missing policy starts a new one. */
  function ValueOf(current: Document): Result<Json, Unmergeable>
  {
    match current
    case Absent => Success(Object(map["Version" := Str("2012-10-17")]))
    case Garbage => Failure(NotJson)
    case Parsed(policy) => Success(policy)
  }

  /** The statements of a document, when it is one a grant can be merged into. */
  function Statements(current: Document): Result<seq<Json>, Unmergeable>
  {
    match ValueOf(current)
    case Failure(e) => Failure(e)
    case Success(policy) =>
      if !policy.Object? then Failure(NotAnObject)
      else match Get(Some(policy), "Statement")
        case None => Success([])
        case Some(List(items)) => Success(items)
        case Some(Object(fields)) => Success([Object(fields)])
        case Some(_) => Failure(NotAStatement)
  }

  /** The fields of a document besides its statements. */
  function OtherFields(current: Document): map<string, Json>
    requires Statements(current).Success?
  {
    ValueOf(current).value.fields - {"Statement"}
  }

  /** The document with one statement more. */
  function Extended(current: Document, statement: Json): Json
    requires Statements(current).Success?
  {
    Object(OtherFields(current)["Statement" := List(Statements(current).value + [statement])])
  }

  /** Merges a topic's grant: the policy to write, nothing where it is granted already, or a refusal. */
  method WithTopicGrant(current: Document, sid: string -> string, queueArn: string, topicArn: string)
    returns (r: Result<Option<Json>, Unmergeable>)
    ensures Statements(current).Failure? ==> r == Failure(Statements(current).error)
    ensures Statements(current).Success? && Granted(Statements(current).value, topicArn) ==> r == Success(None)
    ensures Statements(current).Success? && !Granted(Statements(current).value, topicArn) ==>
              r == Success(Some(Extended(current, Grant(sid, queueArn, topicArn))))
  {
    var policy: Json;
    match current {
      case Absent => policy := Object(map["Version" := Str("2012-10-17")]);
      case Garbage => return Failure(NotJson);
      case Parsed(parsed) => policy := parsed;
    }
    if !policy.Object? {
      return Failure(NotAnObject);
    }
    var document, statements := policy.fields, [];
    if "Statement" in document {
      match document["Statement"] {
        case List(items) => statements := items;
        case Object(fields) => statements := [Object(fields)];
        case _ => return Failure(NotAStatement);
      }
      document := document - {"Statement"};
    }
    var granted := Granted(statements, topicArn);
    if !granted {
      statements := statements + [Grant(sid, queueArn, topicArn)];
    }
    assert document == OtherFields(current);
    document := document["Statement" := List(statements)];
    return Success(if granted then None else Some(Object(document)));
  }

  /** The document a queue holds once a topic's grant was asked for, as `WithTopicGrant` answers. */
  function After(current: Document, sid: string -> string, queueArn: string, topicArn: string): Document
  {
    if Statements(current).Failure? || Granted(Statements(current).value, topicArn) then current
    else Parsed(Extended(current, Grant(sid, queueArn, topicArn)))
  }

  // ---------------------------------------------------------------------------------------------
  // A list of topics, in turn

  function AfterAll(current: Document, sid: string -> string, queueArn: string, topics: seq<string>): Document
  {
    if topics == [] then current
    else After(AfterAll(current, sid, queueArn, topics[..|topics| - 1]), sid, queueArn, topics[|topics| - 1])
  }

  /** The topics a list adds a statement for: the first mention of each one not granted before. */
  function Ungranted(statements: seq<Json>, topics: seq<string>): seq<string>
  {
    if topics == [] then []
    else
      var before, last := Ungranted(statements, topics[..|topics| - 1]), topics[|topics| - 1];
      if Granted(statements, last) || last in before then before else before + [last]
  }

  function GrantsFor(sid: string -> string, queueArn: string, topics: seq<string>): seq<Json>
  {
    seq(|topics|, i requires 0 <= i < |topics| => Grant(sid, queueArn, topics[i]))
  }

  /** Each distinct topic of the list that was not granted is added for once, and no other. */
  lemma {:induction false} UngrantedOnce(statements: seq<Json>, topics: seq<string>)
    ensures forall t :: t in Ungranted(statements, topics) <==> t in topics && !Granted(statements, t)
    ensures forall i, j :: 0 <= i < j < |Ungranted(statements, topics)| ==>
              Ungranted(statements, topics)[i] != Ungranted(statements, topics)[j]
  {
    if topics != [] {
      var before, last := topics[..|topics| - 1], topics[|topics| - 1];
      UngrantedOnce(statements, before);
      assert topics == before + [last];
    }
  }

  /** What is granted once grants were added: what was, and the topics added for. */
  lemma GrantedWith(statements: seq<Json>, sid: string -> string, queueArn: string, added: seq<string>, topic: string)
    ensures Granted(statements + GrantsFor(sid, queueArn, added), topic) <==> Granted(statements, topic) || topic in added
  {
    hide Grants, Grant;
    var all, own := statements + GrantsFor(sid, queueArn, added), GrantsFor(sid, queueArn, added);
    forall i | 0 <= i < |added| ensures Grants(all[|statements| + i], topic) <==> added[i] == topic {
      GrantIsForOneTopic(sid, queueArn, added[i], topic);
      assert all[|statements| + i] == own[i];
    }
    if Granted(all, topic) {
      var i :| 0 <= i < |all| && Grants(all[i], topic);
      if i >= |statements| {
        assert all[|statements| + (i - |statements|)] == all[i];
      } else {
        assert Grants(statements[i], topic);
      }
    }
    if Granted(statements, topic) {
      var i :| 0 <= i < |statements| && Grants(statements[i], topic);
      assert all[i] == statements[i];
    }
    if topic in added {
      var i :| 0 <= i < |added| && added[i] == topic;
      assert Grants(all[|statements| + i], topic);
    }
  }

  lemma ExtendedStatements(current: Document, statement: Json)
    requires Statements(current).Success?
    ensures Statements(Parsed(Extended(current, statement))) == Success(Statements(current).value + [statement])
    ensures OtherFields(Parsed(Extended(current, statement))) == OtherFields(current)
  {
  }

  /**
   * Granting a list of topics in turn: the operator's statements stay first and in order, one
   * statement follows for each distinct topic not granted before, and no other field changes.
   */
  lemma {:induction false} GrantsAreAppended(
    current: Document, sid: string -> string, queueArn: string, topics: seq<string>)
    requires Statements(current).Success?
    ensures var final := AfterAll(current, sid, queueArn, topics);
            var original := Statements(current).value;
            && Statements(final) == Success(original + GrantsFor(sid, queueArn, Ungranted(original, topics)))
            && OtherFields(final) == OtherFields(current)
    ensures Ungranted(Statements(current).value, topics) == [] ==> AfterAll(current, sid, queueArn, topics) == current
  {
    hide Granted, Extended, Grant, OtherFields, Statements;
    var original := Statements(current).value;
    if topics == [] {
      assert GrantsFor(sid, queueArn, []) == [] && original + [] == original;
    } else {
      var before, last := topics[..|topics| - 1], topics[|topics| - 1];
      var middle, added := AfterAll(current, sid, queueArn, before), Ungranted(original, before);
      GrantsAreAppended(current, sid, queueArn, before);
      GrantedWith(original, sid, queueArn, added, last);
      ExtendedStatements(middle, Grant(sid, queueArn, last));
      assert GrantsFor(sid, queueArn, added + [last]) == GrantsFor(sid, queueArn, added) + [Grant(sid, queueArn, last)];
      assert original + GrantsFor(sid, queueArn, added) + [Grant(sid, queueArn, last)]
          == original + (GrantsFor(sid, queueArn, added) + [Grant(sid, queueArn, last)]);
    }
  }

  /** No grant is lost, every topic of the list is granted after it, and nothing else became granted. */
  lemma GrantedAfterAll(current: Document, sid: string -> string, queueArn: string, topics: seq<string>, topic: string)
    requires Statements(current).Success?
    ensures Statements(AfterAll(current, sid, queueArn, topics)).Success?
    ensures Granted(Statements(AfterAll(current, sid, queueArn, topics)).value, topic)
       <==> Granted(Statements(current).value, topic) || topic in topics
  {
    hide Granted, Statements;
    var original := Statements(current).value;
    GrantsAreAppended(current, sid, queueArn, topics);
    UngrantedOnce(original, topics);
    GrantedWith(original, sid, queueArn, Ungranted(original, topics), topic);
  }

  /** Granting the same topics again, in any order and number, writes nothing. */
  lemma {:induction false} RepeatWritesNothing(
    current: Document, sid: string -> string, queueArn: string, topics: seq<string>, again: seq<string>)
    requires Statements(current).Success? && forall t :: t in again ==> t in topics
    ensures var final := AfterAll(current, sid, queueArn, topics);
            && AfterAll(final, sid, queueArn, again) == final
            && Statements(final).Success?
            && forall t :: t in again ==> Granted(Statements(final).value, t)
  {
    hide Granted, Statements, Extended;
    GrantedAfterAll(current, sid, queueArn, topics, "");
    forall t | t in again ensures Granted(Statements(AfterAll(current, sid, queueArn, topics)).value, t) {
      GrantedAfterAll(current, sid, queueArn, topics, t);
    }
    if again != [] {
      RepeatWritesNothing(current, sid, queueArn, topics, again[..|again| - 1]);
      assert again[|again| - 1] in again;
    }
  }

  // ---------------------------------------------------------------------------------------------
  // What a policy lets through

  /** One request against the queue: which service makes it, what it does, on what, on whose behalf. */
  datatype Access = Access(service: string, action: string, resource: string, source: string)

  /** The strings of a policy element: one, or those of a list. */
  function Texts(element: Option<Json>): set<string>
  {
    match element
    case Some(Str(text)) => {text}
    case Some(List(items)) => set i | 0 <= i < |items| && items[i].Str? :: items[i].text
    case _ => {}
  }

  /** The source ARNs the condition `operator` of a statement names. */
  function Sources(statement: Json, operator: string): set<string>
  {
    Texts(Get(Get(Get(Some(statement), "Condition"), operator), "aws:SourceArn"))
  }

  predicate SameAction(a: string, b: string) { ToLower(a) == ToLower(b) }

  /** Whether a statement allows a request, element by element; actions are told apart without case. */
  predicate Permits(statement: Json, access: Access)
  {
    && Get(Some(statement), "Effect") == Some(Str("Allow"))
    && access.service in Texts(Get(Get(Some(statement), "Principal"), "Service"))
    && (exists action :: action in Texts(Get(Some(statement), "Action")) && SameAction(action, access.action))
    && access.resource in Texts(Get(Some(statement), "Resource"))
    && (access.source in Sources(statement, "ArnEquals") || access.source in Sources(statement, "ArnLike"))
  }

  predicate Permitted(statements: seq<Json>, access: Access)
  {
    exists i :: 0 <= i < |statements| && Permits(statements[i], access)
  }

  /** The request a topic makes to deliver into a queue. */
  function Delivery(queueArn: string, topicArn: string): Access
  {
    Access("sns.amazonaws.com", "sqs:SendMessage", queueArn, topicArn)
  }

  /** A request is that delivery, its action in whatever case. */
  predicate IsDelivery(access: Access, queueArn: string, topicArn: string)
  {
    SameAction(access.action, "sqs:SendMessage") && access == Delivery(queueArn, topicArn).(action := access.action)
  }

  /** The statement added for a topic lets through that topic's delivery into this queue, and nothing else. */
  lemma GrantPermits(sid: string -> string, queueArn: string, topicArn: string, access: Access)
    ensures Permits(Grant(sid, queueArn, topicArn), access) <==> IsDelivery(access, queueArn, topicArn)
  {
    hide ToLower;
    var grant := Grant(sid, queueArn, topicArn);
    assert Texts(Get(Some(grant), "Action")) == {"sqs:SendMessage"};
    assert Texts(Get(Some(grant), "Resource")) == {queueArn};
    assert Texts(Get(Get(Some(grant), "Principal"), "Service")) == {"sns.amazonaws.com"};
    assert Sources(grant, "ArnEquals") == {topicArn} && Sources(grant, "ArnLike") == {};
    assert Get(Some(grant), "Effect") == Some(Str("Allow"));
  }

  lemma HoldsIsMember(element: Option<Json>, wanted: string -> bool)
    ensures Holds(element, wanted) <==> exists text :: text in Texts(element) && wanted(text)
  {
    if Holds(element, wanted) {
      match element
      case Some(Str(text)) => assert text in Texts(element);
      case Some(List(items)) =>
        var i :| 0 <= i < |items| && items[i].Str? && wanted(items[i].text);
        assert items[i].text in Texts(element);
    }
  }

  lemma PinsAreSources(statement: Json, topicArn: string)
    ensures PinsSource(statement, topicArn)
       <==> topicArn in Sources(statement, "ArnEquals") || topicArn in Sources(statement, "ArnLike")
  {
    var wanted := arn => arn == topicArn;
    forall i | 0 <= i < |ARN_CONDITIONS|
      ensures Holds(Get(Get(Get(Some(statement), "Condition"), ARN_CONDITIONS[i]), "aws:SourceArn"), wanted)
         <==> topicArn in Sources(statement, ARN_CONDITIONS[i])
    {
      HoldsIsMember(Get(Get(Get(Some(statement), "Condition"), ARN_CONDITIONS[i]), "aws:SourceArn"), wanted);
    }
    assert ARN_CONDITIONS[0] == "ArnEquals" && ARN_CONDITIONS[1] == "ArnLike";
  }

  /**
   * What the crate takes for a grant is a statement that lets the topic deliver into whichever
   * resources it names; which those are it does not read.
   */
  lemma GrantsIsPermission(statement: Json, topicArn: string, resource: string)
    requires resource in Texts(Get(Some(statement), "Resource"))
    ensures Grants(statement, topicArn) <==> Permits(statement, Delivery(resource, topicArn))
  {
    hide ToLower;
    HoldsIsMember(Get(Get(Some(statement), "Principal"), "Service"), service => service == SNS_SERVICE);
    HoldsIsMember(Get(Some(statement), "Action"), action => ToLower(action) == ToLower(SEND_MESSAGE));
    PinsAreSources(statement, topicArn);
    hide Holds, PinsSource;
  }

  /** What a document lets through once topics were added for. */
  lemma PermittedWith(
    statements: seq<Json>, sid: string -> string, queueArn: string, added: seq<string>, access: Access)
    ensures Permitted(statements + GrantsFor(sid, queueArn, added), access)
       <==> Permitted(statements, access) || exists t :: t in added && IsDelivery(access, queueArn, t)
  {
    hide Permits, Grant, IsDelivery;
    var all, own := statements + GrantsFor(sid, queueArn, added), GrantsFor(sid, queueArn, added);
    forall i | 0 <= i < |added| ensures Permits(all[|statements| + i], access) <==> IsDelivery(access, queueArn, added[i]) {
      GrantPermits(sid, queueArn, added[i], access);
      assert all[|statements| + i] == own[i];
    }
    if Permitted(all, access) {
      var i :| 0 <= i < |all| && Permits(all[i], access);
      if i >= |statements| {
        assert all[|statements| + (i - |statements|)] == all[i];
      } else {
        assert Permits(statements[i], access);
      }
    }
    if Permitted(statements, access) {
      var i :| 0 <= i < |statements| && Permits(statements[i], access);
      assert all[i] == statements[i];
    }
    if t :| t in added && IsDelivery(access, queueArn, t) {
      var i :| 0 <= i < |added| && added[i] == t;
      assert Permits(all[|statements| + i], access);
    }
  }

  /**
   * After a list of topics was granted in turn, the document lets through exactly what it did before
   * and the delivery into this queue of each topic of the list it held no grant for.
   */
  lemma PermittedAfterAll(
    current: Document, sid: string -> string, queueArn: string, topics: seq<string>, access: Access)
    requires Statements(current).Success?
    ensures Statements(AfterAll(current, sid, queueArn, topics)).Success?
    ensures Permitted(Statements(AfterAll(current, sid, queueArn, topics)).value, access)
       <==> (|| Permitted(Statements(current).value, access)
             || exists t :: t in topics && !Granted(Statements(current).value, t) && IsDelivery(access, queueArn, t))
  {
    hide Granted, Permitted, Statements, IsDelivery;
    var original := Statements(current).value;
    GrantsAreAppended(current, sid, queueArn, topics);
    UngrantedOnce(original, topics);
    PermittedWith(original, sid, queueArn, Ungranted(original, topics), access);
  }

  /**
   * So after the list a topic of it may deliver into the queue, unless a statement taken for its
   * grant names other resources only and nothing else lets it.
   */
  lemma MayDeliverExactly(current: Document, sid: string -> string, queueArn: string, topics: seq<string>, topic: string)
    requires Statements(current).Success? && topic in topics
    ensures Statements(AfterAll(current, sid, queueArn, topics)).Success?
    ensures Permitted(Statements(AfterAll(current, sid, queueArn, topics)).value, Delivery(queueArn, topic))
       <==> !Granted(Statements(current).value, topic) || Permitted(Statements(current).value, Delivery(queueArn, topic))
  {
    hide Granted, Permitted, Statements, ToLower;
    PermittedAfterAll(current, sid, queueArn, topics, Delivery(queueArn, topic));
    assert IsDelivery(Delivery(queueArn, topic), queueArn, topic);
  }

  /** Such a statement: written for another queue, it is taken for the grant, and nothing is written. */
  lemma OtherQueueTakenForGranted(sid: string -> string, queueArn: string, other: string, topicArn: string)
    requires queueArn != other
    ensures var current := Parsed(Object(map["Statement" := List([Grant(sid, other, topicArn)])]));
            && AfterAll(current, sid, queueArn, [topicArn]) == current
            && Statements(current) == Success([Grant(sid, other, topicArn)])
            && !Permitted([Grant(sid, other, topicArn)], Delivery(queueArn, topicArn))
  {
    hide Grant, Permits, Grants;
    GrantIsForOneTopic(sid, other, topicArn, topicArn);
    GrantPermits(sid, other, topicArn, Delivery(queueArn, topicArn));
    assert Grants([Grant(sid, other, topicArn)][0], topicArn);
    assert [topicArn][..0] == [];
  }

  /** A queue without a policy gets a versioned document that holds the grants and nothing else. */
  lemma NewDocument(sid: string -> string, queueArn: string, topics: seq<string>)
    requires topics != []
    ensures AfterAll(Absent, sid, queueArn, topics) == Parsed(Object(map[
              "Version" := Str("2012-10-17"),
              "Statement" := List(GrantsFor(sid, queueArn, Ungranted([], topics)))]))
  {
    assert Statements(Absent) == Success([]) && OtherFields(Absent) == map["Version" := Str("2012-10-17")];
    hide Statements, OtherFields, Granted, Grant, AfterAll;
    GrantsAreAppended(Absent, sid, queueArn, topics);
    UngrantedOnce([], topics);
    NothingGranted(topics[0]);
    assert topics[0] in Ungranted([], topics);
    assert [] + GrantsFor(sid, queueArn, Ungranted([], topics)) == GrantsFor(sid, queueArn, Ungranted([], topics));
    AlwaysListed(Absent, sid, queueArn, topics);
  }

  lemma NothingGranted(topic: string)
    ensures !Granted([], topic)
  {
  }

  /** Once anything was written, the statements are a list. */
  lemma {:induction false} AlwaysListed(current: Document, sid: string -> string, queueArn: string, topics: seq<string>)
    requires Statements(current).Success?
    ensures var final := AfterAll(current, sid, queueArn, topics);
            && Statements(final).Success?
            && (final != current ==>
                  final == Parsed(Object(OtherFields(final)["Statement" := List(Statements(final).value)])))
  {
    hide Granted, Grant;
    if topics != [] {
      AlwaysListed(current, sid, queueArn, topics[..|topics| - 1]);
    }
  }
}
