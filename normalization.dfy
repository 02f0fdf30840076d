/** Turning the parsed body into the submission record (formodoro/main.py,
    the `isinstance` dispatch in the `/submit` handler). */
module Normalization {
  import opened Values
  import opened ContentType

  const UnsupportedData: string := "Unsupported data type"

  /** The keys a form carries, repeated keys once. */
  function FormKeys(form: FormData): set<string> {
    set i | 0 <= i < |form| :: form[i].key
  }

  /** `{key: body[key] for key in body.keys()}` over a form: one entry per
      distinct key, and for a repeated key the form's lookup yields the
      value sent last. */
  function FormToDict(form: FormData): (d: Record)
    ensures d.Keys == FormKeys(form)
  {
    if form == [] then map[]
    else
      var last := form[|form| - 1];
      var init := form[..|form| - 1];
      assert FormKeys(form) == FormKeys(init) + {last.key} by {
        forall k | k in FormKeys(form) ensures k in FormKeys(init) + {last.key} {
          var i :| 0 <= i < |form| && form[i].key == k;
          if i < |form| - 1 {
            assert init[i] == form[i];
          }
        }
        forall k | k in FormKeys(init) ensures k in FormKeys(form) {
          var i :| 0 <= i < |init| && init[i].key == k;
          assert form[i] == init[i];
        }
      }
      FormToDict(init)[last.key := last.value]
  }

  /** `i` is the position where `k` occurs last in the form. */
  predicate IsLastOccurrence(form: FormData, i: nat, k: string) {
    i < |form| && form[i].key == k && forall j :: i < j < |form| ==> form[j].key != k
  }

  /** Each field of the record holds the value of the LAST occurrence of
      its key in the form. */
  lemma {:induction false} LastValueWins(form: FormData, k: string)
    requires k in FormKeys(form)
    ensures exists i: nat :: IsLastOccurrence(form, i, k) && FormToDict(form)[k] == form[i].value
  {
    var n := |form|;
    var init := form[..n - 1];
    if form[n - 1].key == k {
      assert IsLastOccurrence(form, n - 1, k) && FormToDict(form)[k] == form[n - 1].value;
    } else {
      var i0 :| 0 <= i0 < n && form[i0].key == k;
      assert i0 < n - 1 && init[i0] == form[i0];
      LastValueWins(init, k);
      var i: nat :| IsLastOccurrence(init, i, k) && FormToDict(init)[k] == init[i].value;
      assert form[i] == init[i];
      forall j | i < j < n ensures form[j].key != k {
        if j < n - 1 {
          assert form[j] == init[j];
        }
      }
      assert IsLastOccurrence(form, i, k);
    }
  }

  /** The value of every key is the one at its last occurrence; that
      occurrence is unique. */
  lemma {:induction false} FormValues(form: FormData)
    ensures forall k, i: nat :: IsLastOccurrence(form, i, k) ==> k in FormToDict(form) && FormToDict(form)[k] == form[i].value
    ensures forall k, i: nat, j: nat :: IsLastOccurrence(form, i, k) && IsLastOccurrence(form, j, k) ==> i == j
  {
    forall k, i: nat | IsLastOccurrence(form, i, k)
      ensures k in FormToDict(form) && FormToDict(form)[k] == form[i].value
    {
      assert k in FormKeys(form);
      LastValueWins(form, k);
      var j: nat :| IsLastOccurrence(form, j, k) && FormToDict(form)[k] == form[j].value;
      assert !(i < j) && !(j < i);
    }
  }

  /** When no key repeats, every field keeps exactly the value sent. */
  lemma {:induction false} DistinctKeysKeepValues(form: FormData, i: nat)
    requires forall a, b :: 0 <= a < b < |form| ==> form[a].key != form[b].key
    requires i < |form|
    ensures form[i].key in FormToDict(form) && FormToDict(form)[form[i].key] == form[i].value
  {
    LastValueWins(form, form[i].key);
  }

  /** The handler's body dispatch: a JSON object is the record as it is,
      form fields become a record with exactly the form's keys, and any
      other JSON value (array, string, number, boolean, null) is refused. */
  function Normalize(body: Body): (r: Result<Record>)
    ensures body.JsonBody? && body.json.Object? ==> r == Ok(body.json.fields)
    ensures body.FormBody? ==> r == Ok(FormToDict(body.form)) && r.value.Keys == FormKeys(body.form)
    ensures body.FormBody? ==> forall k, i: nat :: IsLastOccurrence(body.form, i, k) ==> r.value[k] == body.form[i].value
    ensures r.Err? <==> body.JsonBody? && !body.json.Object?
    ensures r.Err? ==> r.response == Status(400, UnsupportedData)
  {
    match body
    case JsonBody(Object(fields)) => Ok(fields)
    case JsonBody(_) => Err(Status(400, UnsupportedData))
    case FormBody(form) => FormValues(form); Ok(FormToDict(form))
  }
}
