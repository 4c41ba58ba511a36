/** The settings page: the four store settings loaded from the key/value table
    into a form and saved back. */
module SettingsPage {
  import opened Common
  import opened Types

  /** `settingsMap` after the `forEach`: every row in order writes its value, or
      '' for a missing or empty one, under its key, so a later row wins. */
  function Loaded(rows: seq<Setting>): map<string, string>
  {
    if rows == [] then map[]
    else Loaded(rows[..|rows| - 1])[rows[|rows| - 1].key := OrBlank(rows[|rows| - 1].value)]
  }

  /** The keys are exactly the rows' keys. */
  lemma {:induction false} LoadedKeys(rows: seq<Setting>, k: string)
    ensures k in Loaded(rows) <==> exists i :: 0 <= i < |rows| && rows[i].key == k
  {
    if rows != [] {
      var init := rows[..|rows| - 1];
      LoadedKeys(init, k);
      if exists i :: 0 <= i < |init| && init[i].key == k {
        var i :| 0 <= i < |init| && init[i].key == k;
        assert rows[i].key == k;
      }
    }
  }

  /** Each value comes from the last row with that key: a later row wins. */
  lemma {:induction false} LoadedLast(rows: seq<Setting>, i: nat)
    requires i < |rows|
    requires forall j :: i < j < |rows| ==> rows[j].key != rows[i].key
    ensures rows[i].key in Loaded(rows) && Loaded(rows)[rows[i].key] == OrBlank(rows[i].value)
  {
    if i < |rows| - 1 {
      var init := rows[..|rows| - 1];
      assert init[i] == rows[i];
      LoadedLast(init, i);
    }
  }

  /** The keys the page reads and writes, in the order it saves them. */
  const StoreName := "store_name"
  const TaxRate := "tax_rate"
  const Currency := "currency"
  const ReceiptFooter := "receipt_footer"

  datatype SettingsForm = SettingsForm(storeName: string, taxRate: string, currency: string, receiptFooter: string)

  /** `settingsMap[k] || ''`. */
  function Field(m: map<string, string>, k: string): (v: string)
    ensures k !in m ==> v == ""
    ensures k in m ==> v == m[k]
  {
    if k in m then m[k] else ""
  }

  /** The form: each field takes its key's value, or '' when the key is absent. */
  function FormOf(m: map<string, string>): SettingsForm
  {
    SettingsForm(Field(m, StoreName), Field(m, TaxRate), Field(m, Currency), Field(m, ReceiptFooter))
  }

  /** `settingsApi.upsert(key, value)`. */
  datatype Request = UpsertSetting(key: string, value: string)

  /** The four writes of `handleSave`: exactly the four keys, each with its field. */
  function SaveRequests(f: SettingsForm): (r: seq<Request>)
    ensures |r| == 4
    ensures r[0] == UpsertSetting(StoreName, f.storeName) && r[1] == UpsertSetting(TaxRate, f.taxRate)
    ensures r[2] == UpsertSetting(Currency, f.currency) && r[3] == UpsertSetting(ReceiptFooter, f.receiptFooter)
  {
    [UpsertSetting(StoreName, f.storeName), UpsertSetting(TaxRate, f.taxRate),
     UpsertSetting(Currency, f.currency), UpsertSetting(ReceiptFooter, f.receiptFooter)]
  }

  /** An upsert on the table keyed by `key`: the rows with that key take the new
      value (the timestamp column is not modelled); without one, a row is added. */
  function Upsert(rows: seq<Setting>, req: Request): (r: seq<Setting>)
  {
    if exists i :: 0 <= i < |rows| && rows[i].key == req.key then Overwrite(rows, req)
    else rows + [Setting(req.key, Some(req.value))]
  }

  function Overwrite(rows: seq<Setting>, req: Request): (r: seq<Setting>)
    ensures |r| == |rows|
    ensures forall i :: 0 <= i < |rows| ==> r[i] == if rows[i].key == req.key then Setting(req.key, Some(req.value)) else rows[i]
  {
    if rows == [] then []
    else
      var last := rows[|rows| - 1];
      Overwrite(rows[..|rows| - 1], req) + [if last.key == req.key then Setting(req.key, Some(req.value)) else last]
  }

  lemma {:induction false} OverwriteLoaded(rows: seq<Setting>, req: Request)
    ensures Loaded(Overwrite(rows, req)) ==
      if req.key in Loaded(rows) then Loaded(rows)[req.key := req.value] else Loaded(rows)
  {
    if rows != [] {
      var init := rows[..|rows| - 1];
      OverwriteLoaded(init, req);
      assert Overwrite(rows, req)[..|rows| - 1] == Overwrite(init, req);
    }
  }

  /** After an upsert the page would load the new value under that key and the
      same values under every other key. */
  lemma UpsertLoaded(rows: seq<Setting>, req: Request)
    ensures Loaded(Upsert(rows, req)) == Loaded(rows)[req.key := req.value]
  {
    LoadedKeys(rows, req.key);
    if exists i :: 0 <= i < |rows| && rows[i].key == req.key {
      OverwriteLoaded(rows, req);
    } else {
      var r := rows + [Setting(req.key, Some(req.value))];
      assert r[..|r| - 1] == rows;
    }
  }

  function ApplyAll(rows: seq<Setting>, reqs: seq<Request>): seq<Setting>
    decreases |reqs|
  {
    if reqs == [] then rows else ApplyAll(Upsert(rows, reqs[0]), reqs[1..])
  }

  /** Four requests applied one after the other. */
  lemma ApplyFour(rows: seq<Setting>, reqs: seq<Request>)
    requires |reqs| == 4
    ensures ApplyAll(rows, reqs) == Upsert(Upsert(Upsert(Upsert(rows, reqs[0]), reqs[1]), reqs[2]), reqs[3])
  {
    var r1 := Upsert(rows, reqs[0]);
    var r2 := Upsert(r1, reqs[1]);
    var r3 := Upsert(r2, reqs[2]);
    var r4 := Upsert(r3, reqs[3]);
    assert ApplyAll(r3, [reqs[3]]) == r4 by {
      assert [reqs[3]][1..] == [];
    }
    assert ApplyAll(r2, [reqs[2], reqs[3]]) == r4 by {
      assert [reqs[2], reqs[3]][1..] == [reqs[3]];
    }
    assert ApplyAll(r1, [reqs[1], reqs[2], reqs[3]]) == r4 by {
      assert [reqs[1], reqs[2], reqs[3]][1..] == [reqs[2], reqs[3]];
    }
    assert reqs[1..] == [reqs[1], reqs[2], reqs[3]];
  }

  /** The four keys are distinct, so the form reads back each written value. */
  lemma FormOfWritten(m: map<string, string>, f: SettingsForm)
    ensures FormOf(m[StoreName := f.storeName][TaxRate := f.taxRate][Currency := f.currency][ReceiptFooter := f.receiptFooter]) == f
  {
  }

  /** Saving the form and loading the page again gives the same form back,
      whatever the table held before. */
  lemma SaveThenLoad(rows: seq<Setting>, f: SettingsForm)
    ensures FormOf(Loaded(ApplyAll(rows, SaveRequests(f)))) == f
  {
    var reqs := SaveRequests(f);
    ApplyFour(rows, reqs);
    var r1 := Upsert(rows, reqs[0]);
    var r2 := Upsert(r1, reqs[1]);
    var r3 := Upsert(r2, reqs[2]);
    UpsertLoaded(rows, reqs[0]);
    UpsertLoaded(r1, reqs[1]);
    UpsertLoaded(r2, reqs[2]);
    UpsertLoaded(r3, reqs[3]);
    FormOfWritten(Loaded(rows), f);
  }

  datatype Notice = LoadFailed | Saved | SaveFailed

  class SettingsPage {
    var form: SettingsForm
    var loading: bool
    var saving: bool
    var requests: seq<Request>
    var notices: seq<Notice>

    constructor()
      ensures form == SettingsForm("", "", "", "") && loading && !saving && requests == [] && notices == []
    {
      form := SettingsForm("", "", "", "");
      loading := true;
      saving := false;
      requests := [];
      notices := [];
    }

    /** `loadSettings`: `data` is the table read back, `None` when the read throws. */
    method LoadSettings(data: Option<seq<Setting>>)
      modifies this
      ensures data.Some? ==> form == FormOf(Loaded(data.value)) && notices == old(notices)
      ensures data.None? ==> form == old(form) && notices == old(notices) + [LoadFailed]
      ensures !loading && saving == old(saving) && requests == old(requests)
    {
      loading := true;
      if data.None? {
        notices := notices + [LoadFailed];
      } else {
        var rows := data.value;
        var settingsMap: map<string, string> := map[];
        var i := 0;
        while i < |rows|
          invariant 0 <= i <= |rows|
          invariant settingsMap == Loaded(rows[..i])
        {
          settingsMap := settingsMap[rows[i].key := OrBlank(rows[i].value)];
          assert rows[..i + 1][..i] == rows[..i];
          i := i + 1;
        }
        assert rows[..|rows|] == rows;
        form := FormOf(settingsMap);
      }
      loading := false;
    }

    /** Typing into one of the fields. */
    method Edit(f: SettingsForm)
      modifies this
      ensures form == f && loading == old(loading) && saving == old(saving)
      ensures requests == old(requests) && notices == old(notices)
    {
      form := f;
    }

    /** `handleSave`: `ok` says whether all four writes succeed. */
    method HandleSave(ok: bool)
      modifies this
      ensures requests == old(requests) + SaveRequests(old(form))
      ensures notices == old(notices) + [if ok then Saved else SaveFailed]
      ensures !saving && form == old(form) && loading == old(loading)
    {
      saving := true;
      requests := requests + SaveRequests(form);
      if ok {
        notices := notices + [Saved];
      } else {
        notices := notices + [SaveFailed];
      }
      saving := false;
    }
  }
}
