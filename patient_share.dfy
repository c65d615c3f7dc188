/**
 * The host page's side of a load request: which patient fields it offers to
 * share, how the operator ticks them, and the `prepopulated` map sent back.
 */
module PatientShare {
  import opened Wrappers
  import opened Messages
  import opened FormsChannel
  import opened JsObject

  /**
   * The patient record as far as sharing reads it. Every member may be
   * missing; `dateOfBirth` is the stored date in whatever form it arrived.
   */
  datatype Patient = Patient(
    lastName: Option<string>,
    firstName: Option<string>,
    gender: Option<string>,
    dateOfBirth: Option<string>,
    phone: Option<string>,
    address: Option<string>)

  /** JavaScript truthiness of an optional string: present and non-empty. */
  predicate Truthy(v: Option<string>) {
    v.Some? && v.value != ""
  }

  /** The caption and the value that one form field id maps to. */
  datatype FieldInfo = FieldInfo(caption: string, value: Option<string>)

  /** One row of the share dialog; a row built for an id the mapping lacks has no caption. */
  datatype ShareableField = ShareableField(key: string, caption: Option<string>, value: Option<string>, checked: bool)

  /** The six form field ids the host knows how to fill. */
  const FieldKeys: seq<string> := [
    "client.familyName", "client.firstNames", "client.gender",
    "client.dateOfBirth", "client.phone", "client.address"]

  /**
   * The field mapping built from a patient. `formatDate` stands for the
   * browser's locale date rendering, which the model does not fix.
   */
  function FieldMapping(p: Patient, formatDate: string -> string): (m: map<string, FieldInfo>)
    ensures forall k :: k in m <==> k in FieldKeys
    ensures m["client.dateOfBirth"].value.Some? <==> Truthy(p.dateOfBirth)
  {
    map[
      "client.familyName" := FieldInfo("Last Name", p.lastName),
      "client.firstNames" := FieldInfo("First Names", p.firstName),
      "client.gender" := FieldInfo("Gender", p.gender),
      "client.dateOfBirth" := FieldInfo("Date of Birth",
        if Truthy(p.dateOfBirth) then Some(formatDate(p.dateOfBirth.value)) else None),
      "client.phone" := FieldInfo("Phone", p.phone),
      "client.address" := FieldInfo("Address", p.address)]
  }

  // ------------------------------------------------------------ requested keys

  /** The requested ids that the mapping has an entry for, in request order. */
  function RequestedKeys(requestFields: seq<string>): (r: seq<string>)
    ensures |r| <= |requestFields|
    ensures forall i :: 0 <= i < |r| ==> r[i] in FieldKeys
  {
    if requestFields == [] then []
    else
      var rest := RequestedKeys(requestFields[1..]);
      if requestFields[0] in FieldKeys then [requestFields[0]] + rest else rest
  }

  /** Filtering keeps request order: the kept ids of a concatenation are the concatenation of the kept ids. */
  lemma {:induction false} RequestedKeysAppend(a: seq<string>, b: seq<string>)
    ensures RequestedKeys(a + b) == RequestedKeys(a) + RequestedKeys(b)
    decreases |a|
  {
    if a == [] {
      assert a + b == b;
    } else {
      assert (a + b)[1..] == a[1..] + b;
      RequestedKeysAppend(a[1..], b);
    }
  }

  /** Each known id is kept as often as it was requested; every other id is dropped. */
  lemma {:induction false} RequestedKeysCount(requestFields: seq<string>, k: string)
    ensures multiset(RequestedKeys(requestFields))[k] == if k in FieldKeys then multiset(requestFields)[k] else 0
    decreases |requestFields|
  {
    if requestFields != [] {
      RequestedKeysCount(requestFields[1..], k);
      assert requestFields == [requestFields[0]] + requestFields[1..];
    }
  }

  /** An id is kept exactly when it was requested and is one of the six keys. */
  lemma RequestedKeysMembers(requestFields: seq<string>, k: string)
    ensures k in RequestedKeys(requestFields) <==> k in requestFields && k in FieldKeys
  {
    RequestedKeysCount(requestFields, k);
  }

  /**
   * `createShareableFields` with the own-key filter: one ticked row per kept
   * id, labelled and filled from the mapping. The page uses these rows.
   */
  function ShareableFields(p: Patient, requestFields: seq<string>, formatDate: string -> string): (r: seq<ShareableField>)
    ensures |r| == |RequestedKeys(requestFields)|
    ensures forall i :: 0 <= i < |r| ==>
      var m := FieldMapping(p, formatDate);
      r[i].key == RequestedKeys(requestFields)[i] && r[i].key in m &&
      r[i].caption == Some(m[r[i].key].caption) && r[i].value == m[r[i].key].value && r[i].checked
  {
    var m := FieldMapping(p, formatDate);
    var keys := RequestedKeys(requestFields);
    seq(|keys|, i requires 0 <= i < |keys| => ShareableField(keys[i], Some(m[keys[i]].caption), m[keys[i]].value, true))
  }

  // ---------------------------------------------- the filter as the code has it

  /** The ids the filter `fieldMapping[field]` lets through as written: own keys and inherited names. */
  function RequestedKeysAsWritten(requestFields: seq<string>): (r: seq<string>)
    ensures |r| <= |requestFields|
    ensures forall i :: 0 <= i < |r| ==> r[i] in FieldKeys || r[i] in InheritedNames
  {
    if requestFields == [] then []
    else
      var rest := RequestedKeysAsWritten(requestFields[1..]);
      if requestFields[0] in FieldKeys || requestFields[0] in InheritedNames then [requestFields[0]] + rest else rest
  }

  /** An id passes the filter as written exactly when it was requested and is an own key or an inherited name. */
  lemma {:induction false} RequestedKeysAsWrittenMembers(requestFields: seq<string>, k: string)
    ensures k in RequestedKeysAsWritten(requestFields) <==> k in requestFields && (k in FieldKeys || k in InheritedNames)
    decreases |requestFields|
  {
    if requestFields != [] {
      RequestedKeysAsWrittenMembers(requestFields[1..], k);
      assert requestFields == [requestFields[0]] + requestFields[1..];
    }
  }

  /**
   * The rows `createShareableFields` builds as written: one per id the filter
   * lets through, where an inherited name, having no entry in the mapping,
   * gets an undefined caption and value.
   */
  function ShareableFieldsAsWritten(p: Patient, requestFields: seq<string>, formatDate: string -> string): (r: seq<ShareableField>)
    ensures |r| == |RequestedKeysAsWritten(requestFields)|
    ensures forall i :: 0 <= i < |r| ==>
      var m := FieldMapping(p, formatDate);
      r[i].key == RequestedKeysAsWritten(requestFields)[i] && r[i].checked &&
      if r[i].key in m then r[i].caption == Some(m[r[i].key].caption) && r[i].value == m[r[i].key].value
      else r[i].caption.None? && r[i].value.None?
  {
    var m := FieldMapping(p, formatDate);
    var keys := RequestedKeysAsWritten(requestFields);
    seq(|keys|, i requires 0 <= i < |keys| =>
      if keys[i] in m then ShareableField(keys[i], Some(m[keys[i]].caption), m[keys[i]].value, true)
      else ShareableField(keys[i], None, None, true))
  }

  /**
   * A form that requests `toString` gets a row for it as written: the id
   * passes the filter though the mapping has no entry, so the row's caption and
   * value are undefined. The corrected filter drops it.
   */
  lemma InheritedNameSlipsThrough()
    ensures RequestedKeysAsWritten(["toString"]) == ["toString"]
    ensures "toString" !in FieldMapping(Patient(None, None, None, None, None, None), s => s)
    ensures RequestedKeys(["toString"]) == []
  {
  }

  /** The two filters agree on every request that names no inherited property. */
  lemma {:induction false} FiltersAgreeWithoutInheritedNames(requestFields: seq<string>)
    requires forall i :: 0 <= i < |requestFields| ==> requestFields[i] !in InheritedNames
    ensures RequestedKeysAsWritten(requestFields) == RequestedKeys(requestFields)
    decreases |requestFields|
  {
    if requestFields != [] {
      FiltersAgreeWithoutInheritedNames(requestFields[1..]);
    }
  }

  // ------------------------------------------------------------- ticking rows

  /** `handleSelectAll(checked)`. */
  function SelectAll(fields: seq<ShareableField>, checked: bool): (r: seq<ShareableField>)
    ensures |r| == |fields|
    ensures forall i :: 0 <= i < |r| ==> r[i] == fields[i].(checked := checked)
  {
    seq(|fields|, i requires 0 <= i < |fields| => fields[i].(checked := checked))
  }

  /** `handleFieldCheck(key, checked)`. */
  function FieldCheck(fields: seq<ShareableField>, key: string, checked: bool): (r: seq<ShareableField>)
    ensures |r| == |fields|
    ensures forall i :: 0 <= i < |r| ==> r[i] == if fields[i].key == key then fields[i].(checked := checked) else fields[i]
  {
    seq(|fields|, i requires 0 <= i < |fields| =>
      if fields[i].key == key then fields[i].(checked := checked) else fields[i])
  }

  /** Only the last select-all counts, and it leaves keys, labels and values as they were. */
  lemma SelectAllLastWins(fields: seq<ShareableField>, a: bool, b: bool)
    ensures SelectAll(SelectAll(fields, a), b) == SelectAll(fields, b)
    ensures forall i :: 0 <= i < |fields| ==>
      var f := SelectAll(fields, a)[i];
      f.key == fields[i].key && f.caption == fields[i].caption && f.value == fields[i].value
  {
  }

  /** Ticking a key no row has changes nothing; ticking twice is ticking once. */
  lemma FieldCheckProperties(fields: seq<ShareableField>, key: string, checked: bool)
    ensures (forall i :: 0 <= i < |fields| ==> fields[i].key != key) ==> FieldCheck(fields, key, checked) == fields
    ensures FieldCheck(FieldCheck(fields, key, checked), key, checked) == FieldCheck(fields, key, checked)
  {
  }

  // ------------------------------------------------------------ the response

  /** A row the response includes: ticked, with a truthy value. */
  predicate Shared(f: ShareableField) {
    f.checked && Truthy(f.value)
  }

  /**
   * The `prepopulated` map the rows produce, filled in row order so that a
   * later row with the same key overwrites an earlier one.
   */
  function Prepopulated(fields: seq<ShareableField>): map<string, Scalar>
    decreases |fields|
  {
    if fields == [] then map[]
    else
      var f := fields[|fields| - 1];
      var m := Prepopulated(fields[..|fields| - 1]);
      if Shared(f) then m[f.key := Text(f.value.value)] else m
  }

  /** The map's keys are exactly the keys of shared rows. */
  lemma {:induction false} PrepopulatedKeys(fields: seq<ShareableField>, k: string)
    ensures k in Prepopulated(fields) <==> exists i :: 0 <= i < |fields| && Shared(fields[i]) && fields[i].key == k
    decreases |fields|
  {
    if fields != [] {
      var prefix := fields[..|fields| - 1];
      PrepopulatedKeys(prefix, k);
      if k in Prepopulated(fields) && !(Shared(fields[|fields| - 1]) && fields[|fields| - 1].key == k) {
        var i :| 0 <= i < |prefix| && Shared(prefix[i]) && prefix[i].key == k;
        assert fields[i] == prefix[i];
      }
      if exists i :: 0 <= i < |fields| && Shared(fields[i]) && fields[i].key == k {
        var i :| 0 <= i < |fields| && Shared(fields[i]) && fields[i].key == k;
        if i < |prefix| {
          assert prefix[i] == fields[i];
        }
      }
    }
  }

  /** A key maps to the value of the last shared row with that key. */
  lemma {:induction false} PrepopulatedLastWins(fields: seq<ShareableField>, i: nat)
    requires i < |fields| && Shared(fields[i])
    requires forall j :: i < j < |fields| && fields[j].key == fields[i].key ==> !Shared(fields[j])
    ensures fields[i].key in Prepopulated(fields)
    ensures Prepopulated(fields)[fields[i].key] == Text(fields[i].value.value)
    decreases |fields|
  {
    if i < |fields| - 1 {
      var prefix := fields[..|fields| - 1];
      assert prefix[i] == fields[i];
      forall j | i < j < |prefix| && prefix[j].key == prefix[i].key
        ensures !Shared(prefix[j])
      {
        assert prefix[j] == fields[j];
      }
      PrepopulatedLastWins(prefix, i);
    }
  }

  /** `handleShareSubmit`'s loop: add every shared row's value under its key. */
  method CollectResponseData(fields: seq<ShareableField>) returns (responseData: map<string, Scalar>)
    ensures responseData == Prepopulated(fields)
  {
    responseData := map[];
    for i := 0 to |fields|
      invariant responseData == Prepopulated(fields[..i])
    {
      assert fields[..i + 1][..i] == fields[..i];
      var field := fields[i];
      if field.checked && field.value.Some? && field.value.value != "" {
        responseData := responseData[field.key := Text(field.value.value)];
      }
    }
    assert fields[..|fields|] == fields;
  }

  /**
   * With the rows built fresh from a request, the response offers exactly the
   * requested known fields whose patient value is truthy, each with that value.
   */
  lemma FreshRowsShareTruthyFields(p: Patient, requestFields: seq<string>, formatDate: string -> string, k: string)
    ensures var m := FieldMapping(p, formatDate);
      k in Prepopulated(ShareableFields(p, requestFields, formatDate)) <==>
        k in requestFields && k in FieldKeys && Truthy(m[k].value)
    ensures var m := FieldMapping(p, formatDate);
      k in Prepopulated(ShareableFields(p, requestFields, formatDate)) ==>
        Prepopulated(ShareableFields(p, requestFields, formatDate))[k] == Text(m[k].value.value)
  {
    var m := FieldMapping(p, formatDate);
    var keys := RequestedKeys(requestFields);
    SharedRowsFor(ShareableFields(p, requestFields, formatDate), keys, m, k);
    RequestedKeysMembers(requestFields, k);
  }

  /** Ticked rows, one per id of `keys`, carrying the mapping's value, or none for an id the mapping lacks. */
  ghost predicate RowsFor(rows: seq<ShareableField>, keys: seq<string>, m: map<string, FieldInfo>) {
    && |rows| == |keys|
    && forall i :: 0 <= i < |rows| ==>
      rows[i].key == keys[i] && rows[i].checked && rows[i].value == (if keys[i] in m then m[keys[i]].value else None)
  }

  /** Freshly ticked rows share exactly the listed ids whose mapped value is truthy. */
  lemma SharedRowsFor(rows: seq<ShareableField>, keys: seq<string>, m: map<string, FieldInfo>, k: string)
    requires RowsFor(rows, keys, m)
    ensures k in Prepopulated(rows) <==> k in keys && k in m && Truthy(m[k].value)
    ensures k in Prepopulated(rows) ==> k in m && Prepopulated(rows)[k] == Text(m[k].value.value)
  {
    PrepopulatedKeys(rows, k);
    if k in keys && k in m && Truthy(m[k].value) {
      var i :| 0 <= i < |keys| && keys[i] == k;
      assert Shared(rows[i]) && rows[i].key == k;
    }
    if k in Prepopulated(rows) {
      var i :| 0 <= i < |rows| && Shared(rows[i]) && rows[i].key == k;
      assert keys[i] == k;
      var last := LastShared(rows, i);
      PrepopulatedLastWins(rows, last);
    }
  }

  /**
   * As written, a request naming only an inherited property yields one row,
   * so the source opens the dialog, and submitting it replies with an empty
   * map; with the own-key filter there is no row and the dialog stays shut.
   */
  lemma InheritedOnlyRequestOpensDialog(p: Patient, formatDate: string -> string)
    ensures |ShareableFieldsAsWritten(p, ["toString"], formatDate)| == 1
    ensures ShareableFields(p, ["toString"], formatDate) == []
    ensures Prepopulated(ShareableFieldsAsWritten(p, ["toString"], formatDate)) == map[]
  {
    var rows := ShareableFieldsAsWritten(p, ["toString"], formatDate);
    assert "toString" !in FieldMapping(p, formatDate);
    assert rows == [ShareableField("toString", None, None, true)];
    assert rows[..0] == [];
  }

  /** Either filter leads to the same response map: the rows only the filter as written keeps share nothing. */
  lemma AsWrittenRowsShareTheSame(p: Patient, requestFields: seq<string>, formatDate: string -> string)
    ensures Prepopulated(ShareableFieldsAsWritten(p, requestFields, formatDate)) == Prepopulated(ShareableFields(p, requestFields, formatDate))
  {
    var m := FieldMapping(p, formatDate);
    var written := ShareableFieldsAsWritten(p, requestFields, formatDate);
    var own := ShareableFields(p, requestFields, formatDate);
    assert RowsFor(written, RequestedKeysAsWritten(requestFields), m);
    assert RowsFor(own, RequestedKeys(requestFields), m);
    forall k
      ensures k in Prepopulated(written) <==> k in Prepopulated(own)
      ensures k in Prepopulated(written) ==> Prepopulated(written)[k] == Prepopulated(own)[k]
    {
      SharedRowsFor(written, RequestedKeysAsWritten(requestFields), m, k);
      SharedRowsFor(own, RequestedKeys(requestFields), m, k);
      RequestedKeysMembers(requestFields, k);
      RequestedKeysAsWrittenMembers(requestFields, k);
    }
  }

  /** The last shared row with the same key as row `i`. */
  lemma {:induction false} LastShared(rows: seq<ShareableField>, i: nat) returns (last: nat)
    requires i < |rows| && Shared(rows[i])
    ensures i <= last < |rows| && Shared(rows[last]) && rows[last].key == rows[i].key
    ensures forall j :: last < j < |rows| && rows[j].key == rows[i].key ==> !Shared(rows[j])
    decreases |rows| - i
  {
    if exists j :: i < j < |rows| && rows[j].key == rows[i].key && Shared(rows[j]) {
      var j :| i < j < |rows| && rows[j].key == rows[i].key && Shared(rows[j]);
      last := LastShared(rows, j);
    } else {
      last := i;
    }
  }

  // --------------------------------------------------------------- the page

  /** The state of the patient-visit page that the sharing flow reads and writes. */
  class PatientVisitCreator {
    /** The loaded patient, if loading has finished. */
    var patient: Option<Patient>
    /** Whether the form frame is in the page. */
    var iframeMounted: bool
    var showShareModal: bool
    var shareableFields: seq<ShareableField>
    var currentFormRequest: Option<Payload>
    /** The page's channel, listening for load requests only. */
    const channel: InsuranceFormsChannel
    /** The browser's locale date rendering. */
    const formatDate: string -> string

    /** A stored request is always a load request. */
    predicate Valid()
      reads this
    {
      currentFormRequest.Some? ==> currentFormRequest.value.LoadRequest?
    }

    constructor (context: WindowContext, formatDate: string -> string)
      ensures Valid() && fresh(channel)
      ensures channel.listeners == {Event.OnLoadRequest} && channel.context == context
      ensures channel.replySource.None? && channel.outbox == [] && channel.invoked == []
      ensures patient.None? && !iframeMounted && !showShareModal
      ensures shareableFields == [] && currentFormRequest.None? && this.formatDate == formatDate
    {
      channel := new InsuranceFormsChannel({Event.OnLoadRequest}, context);
      this.formatDate := formatDate;
      patient := None;
      iframeMounted := false;
      showShareModal := false;
      shareableFields := [];
      currentFormRequest := None;
    }

    /** The channel's `onLoadRequest` listener. */
    method OnLoadRequest(request: Payload)
      requires Valid() && request.LoadRequest?
      modifies this`shareableFields, this`currentFormRequest, this`showShareModal
      ensures Valid()
      ensures patient.None? || !iframeMounted ==>
        shareableFields == old(shareableFields) && currentFormRequest == old(currentFormRequest) && showShareModal == old(showShareModal)
      ensures patient.Some? && iframeMounted ==>
        var fields := ShareableFields(patient.value, request.fields, formatDate);
        if |fields| > 0 then
          shareableFields == fields && currentFormRequest == Some(request) && showShareModal
        else
          shareableFields == old(shareableFields) && currentFormRequest == old(currentFormRequest) && showShareModal == old(showShareModal)
    {
      if patient.None? {
        return;
      }
      if !iframeMounted {
        return;
      }
      var fields := ShareableFields(patient.value, request.fields, formatDate);
      if |fields| > 0 {
        shareableFields := fields;
        currentFormRequest := Some(request);
        showShareModal := true;
      }
    }

    method HandleSelectAll(checked: bool)
      modifies this`shareableFields
      ensures shareableFields == SelectAll(old(shareableFields), checked)
    {
      shareableFields := SelectAll(shareableFields, checked);
    }

    method HandleFieldCheck(key: string, checked: bool)
      modifies this`shareableFields
      ensures shareableFields == FieldCheck(old(shareableFields), key, checked)
    {
      shareableFields := FieldCheck(shareableFields, key, checked);
    }

    /**
     * Answer the stored request with the shared rows and close the dialog.
     * Without a stored request nothing happens.
     */
    method HandleShareSubmit(now: int)
      requires Valid()
      modifies this`showShareModal, this`currentFormRequest, channel`outbox
      ensures Valid()
      ensures old(currentFormRequest).None? ==>
        showShareModal == old(showShareModal) && currentFormRequest.None? && channel.outbox == old(channel.outbox)
      ensures old(currentFormRequest).Some? ==>
        !showShareModal && currentFormRequest.None? &&
        channel.outbox == old(channel.outbox) + ReplyPosts(channel.replySource,
          Outgoing(Tag(OnLoadResponse), LoadResponse(old(currentFormRequest).value.formId, Prepopulated(shareableFields), map[]), now))
    {
      if currentFormRequest.None? {
        return;
      }
      var responseData := CollectResponseData(shareableFields);
      channel.SendLoadResponse(LoadResponse(currentFormRequest.value.formId, responseData, map[]), now);
      showShareModal := false;
      currentFormRequest := None;
    }

    method HandleShareCancel()
      modifies this`showShareModal, this`currentFormRequest
      ensures Valid() && !showShareModal && currentFormRequest.None?
    {
      showShareModal := false;
      currentFormRequest := None;
    }

    /**
     * A message reaching the page's window: the channel handles it, and a
     * dispatched load request runs the page's listener.
     */
    method Receive(env: Envelope, source: Option<WindowId>)
      requires Valid()
      modifies channel`replySource, channel`invoked, this`shareableFields, this`currentFormRequest, this`showShareModal
      ensures Valid()
      ensures env.channel == ChannelName ==> channel.replySource == source
      ensures channel.invoked == old(channel.invoked) + (if env.channel == ChannelName then Dispatch(channel.listeners, env) else [])
      ensures var opens := env.channel == ChannelName && env.msgType == Tag(Event.OnLoadRequest) &&
          Event.OnLoadRequest in channel.listeners && env.data.LoadRequest? &&
          patient.Some? && iframeMounted && |ShareableFields(patient.value, env.data.fields, formatDate)| > 0;
        if opens then
          shareableFields == ShareableFields(patient.value, env.data.fields, formatDate) &&
          currentFormRequest == Some(env.data) && showShareModal
        else
          shareableFields == old(shareableFields) && currentFormRequest == old(currentFormRequest) && showShareModal == old(showShareModal)
    {
      channel.HandleMessage(env, source);
      if env.channel == ChannelName && env.msgType == Tag(Event.OnLoadRequest) && Event.OnLoadRequest in channel.listeners && env.data.LoadRequest? {
        OnLoadRequest(env.data);
      }
    }
  }

  /**
   * The whole exchange: a load request from window `w` opens the dialog, and
   * submitting it posts to `w`, and only to `w`, a load response for the same
   * form with the fresh rows' shared values and empty content.
   */
  method ShareExchange(page: PatientVisitCreator, w: WindowId, formId: string, fields: seq<string>, now: int)
    requires page.Valid() && page.patient.Some? && page.iframeMounted && OnLoadRequest in page.channel.listeners
    requires |ShareableFields(page.patient.value, fields, page.formatDate)| > 0
    modifies page`shareableFields, page`currentFormRequest, page`showShareModal
    modifies page.channel`replySource, page.channel`invoked, page.channel`outbox
    ensures page.Valid() && !page.showShareModal && page.currentFormRequest.None?
    ensures page.patient.Some?
    ensures page.channel.outbox == old(page.channel.outbox) + [Post(Window(w),
      Outgoing(Tag(OnLoadResponse), LoadResponse(formId, Prepopulated(ShareableFields(page.patient.value, fields, page.formatDate)), map[]), now))]
  {
    page.Receive(Outgoing(Tag(OnLoadRequest), LoadRequest(formId, fields), now), Some(w));
    page.HandleShareSubmit(now);
  }
}
