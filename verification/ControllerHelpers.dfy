/** pkg/controllerhelpers: the patches by which controllers change one annotation or one finalizer of any
    object, and what the API server makes of them. */
module ControllerHelpers {
  import opened Kubernetes
  import opened MergePatch

  /** What the helpers read of an object. */
  datatype Object = Object(resourceVersion: string, annotations: map<string, string>, finalizers: seq<string>)

  // Encoding.

  function Strings(texts: seq<string>): Json {
    JArray(seq(|texts|, i requires 0 <= i < |texts| => JString(texts[i])))
  }

  function Nullable(value: Option<string>): Json {
    if value.Some? then JString(value.value) else JNull
  }

  function StringFields(values: map<string, string>): Json {
    JObject(map k | k in values :: JString(values[k]))
  }

  function MetadataPatch(resourceVersion: string, field: string, value: Json): Json {
    JObject(map["metadata" := JObject(map["resourceVersion" := JString(resourceVersion), field := value])])
  }

  /** The annotations with one of them set, or gone. */
  function WithAnnotation(annotations: map<string, string>, key: string, value: Option<string>): map<string, string> {
    if value.Some? then annotations[key := value.value] else annotations - {key}
  }

  function AnnotationFields(obj: Object, key: string, value: Option<string>): Json {
    JObject((map k | k in obj.annotations :: JString(obj.annotations[k]))[key := Nullable(value)])
  }

  /** The patch lists every annotation, and a null for one that is to go. */
  method PrepareSetAnnotationPatch(obj: Object, key: string, value: Option<string>) returns (patch: Json)
    ensures patch == MetadataPatch(obj.resourceVersion, "annotations", AnnotationFields(obj, key, value))
  {
    var newAnnotations: map<string, Json> := map[];
    var rest := obj.annotations.Keys;
    while rest != {}
      invariant rest <= obj.annotations.Keys
      invariant newAnnotations == map k | k in obj.annotations && k !in rest :: JString(obj.annotations[k])
      decreases rest
    {
      var k :| k in rest;
      newAnnotations := newAnnotations[k := JString(obj.annotations[k])];
      rest := rest - {k};
    }
    assert newAnnotations == map k | k in obj.annotations :: JString(obj.annotations[k]);
    newAnnotations := newAnnotations[key := Nullable(value)];
    patch := MetadataPatch(obj.resourceVersion, "annotations", JObject(newAnnotations));
  }

  function Without<T(==,!new)>(items: seq<T>, item: T): (r: seq<T>)
    ensures item !in r
    ensures forall x :: x != item ==> (x in r <==> x in items)
  {
    if items == [] then []
    else if items[|items| - 1] == item then Without(items[..|items| - 1], item)
    else Without(items[..|items| - 1], item) + [items[|items| - 1]]
  }

  /** slices.Filter, with the filter of PrepareRemoveFinalizerPatch. */
  method FilterOut<T(==,!new)>(items: seq<T>, item: T) returns (r: seq<T>)
    ensures r == Without(items, item)
  {
    r := [];
    for i := 0 to |items|
      invariant r == Without(items[..i], item)
    {
      assert items[..i + 1][..i] == items[..i];
      if items[i] != item {
        r := r + [items[i]];
      }
    }
    assert items[..|items|] == items;
  }

  function PrepareAddFinalizerPatch(obj: Object, finalizer: string): Json {
    MetadataPatch(obj.resourceVersion, "finalizers", Strings(obj.finalizers + [finalizer]))
  }

  method PrepareRemoveFinalizerPatch(obj: Object, finalizer: string) returns (patch: Json)
    ensures patch == RemoveFinalizerPatch(obj, finalizer)
  {
    var newFinalizers := FilterOut(obj.finalizers, finalizer);
    patch := MetadataPatch(obj.resourceVersion, "finalizers", Strings(newFinalizers));
  }

  function RemoveFinalizerPatch(obj: Object, finalizer: string): Json {
    MetadataPatch(obj.resourceVersion, "finalizers", Strings(Without(obj.finalizers, finalizer)))
  }

  // Meaning.

  /** Document `doc` is an object with this metadata; a field with no content may be missing. */
  ghost predicate Shows(doc: Json, obj: Object) {
    && doc.JObject? && "metadata" in doc.fields && doc.fields["metadata"].JObject?
    && var metadata := doc.fields["metadata"].fields;
    && "resourceVersion" in metadata && metadata["resourceVersion"] == JString(obj.resourceVersion)
    && (if "annotations" in metadata then metadata["annotations"] == StringFields(obj.annotations)
        else obj.annotations == map[])
    && (if "finalizers" in metadata then metadata["finalizers"] == Strings(obj.finalizers)
        else obj.finalizers == [])
  }

  /** The document with one field of its metadata replaced, and nothing else changed. */
  function WithMetadata(doc: Json, field: string, value: Json): Json
    requires doc.JObject? && "metadata" in doc.fields && doc.fields["metadata"].JObject?
  {
    JObject(doc.fields["metadata" := JObject(doc.fields["metadata"].fields[field := value])])
  }

  lemma MergeFields(fields: map<string, Json>, patch: map<string, Json>)
    requires forall name <- patch :: !patch[name].JNull?
    ensures Merge(JObject(fields), JObject(patch)).JObject?
    ensures var merged := Merge(JObject(fields), JObject(patch)).fields;
            && merged.Keys == fields.Keys + patch.Keys
            && (forall name <- patch :: merged[name] == Merge(if name in fields then fields[name] else JNull, patch[name]))
            && (forall name <- fields | name !in patch :: merged[name] == fields[name])
  {}

  /** A patch of one metadata field touches that field only. */
  lemma PatchTouchesOneField(doc: Json, obj: Object, field: string, value: Json)
    requires Shows(doc, obj) && field != "resourceVersion" && !value.JNull?
    ensures Merge(doc, MetadataPatch(obj.resourceVersion, field, value)) ==
            var metadata := doc.fields["metadata"].fields;
            WithMetadata(doc, field, Merge(if field in metadata then metadata[field] else JNull, value))
  {
    var metadata := doc.fields["metadata"].fields;
    var inner := map["resourceVersion" := JString(obj.resourceVersion), field := value];
    var merged := Merge(JObject(metadata), JObject(inner));
    MergeFields(metadata, inner);
    assert merged.fields == metadata[field := Merge(if field in metadata then metadata[field] else JNull, value)];
    MergeFields(doc.fields, map["metadata" := JObject(inner)]);
    assert Merge(doc, JObject(map["metadata" := JObject(inner)])).fields == doc.fields["metadata" := merged];
  }

  /** Merging the annotations of the object itself, with one of them changed. */
  lemma MergedAnnotations(base: Json, obj: Object, key: string, value: Option<string>)
    requires base == StringFields(obj.annotations) || (obj.annotations == map[] && base == JNull)
    ensures Merge(base, AnnotationFields(obj, key, value))
         == StringFields(WithAnnotation(obj.annotations, key, value))
  {
    var merged := Merge(base, AnnotationFields(obj, key, value));
    var expected := StringFields(WithAnnotation(obj.annotations, key, value));
    assert merged.fields.Keys == expected.fields.Keys;
    var patch := AnnotationFields(obj, key, value).fields;
    var fields := if base.JObject? then base.fields else map[];
    forall k <- expected.fields ensures merged.fields[k] == expected.fields[k] {
      assert patch[k] == JString(WithAnnotation(obj.annotations, key, value)[k]);
      assert merged.fields[k] == Merge(if k in fields then fields[k] else JNull, patch[k]);
    }
    assert merged.fields == expected.fields;
  }

  /** The annotation patch sets or deletes exactly one key of the live object. */
  lemma AnnotationPatchMeaning(doc: Json, obj: Object, key: string, value: Option<string>)
    requires Shows(doc, obj)
    ensures Merge(doc, MetadataPatch(obj.resourceVersion, "annotations", AnnotationFields(obj, key, value))) ==
            WithMetadata(doc, "annotations", StringFields(WithAnnotation(obj.annotations, key, value)))
  {
    var metadata := doc.fields["metadata"].fields;
    PatchTouchesOneField(doc, obj, "annotations", AnnotationFields(obj, key, value));
    MergedAnnotations(if "annotations" in metadata then metadata["annotations"] else JNull, obj, key, value);
  }

  lemma FinalizerPatchMeaning(doc: Json, obj: Object, finalizer: string)
    requires Shows(doc, obj)
    ensures Merge(doc, PrepareAddFinalizerPatch(obj, finalizer))
         == WithMetadata(doc, "finalizers", Strings(obj.finalizers + [finalizer]))
    ensures Merge(doc, RemoveFinalizerPatch(obj, finalizer))
         == WithMetadata(doc, "finalizers", Strings(Without(obj.finalizers, finalizer)))
  {
    PatchTouchesOneField(doc, obj, "finalizers", Strings(obj.finalizers + [finalizer]));
    PatchTouchesOneField(doc, obj, "finalizers", Strings(Without(obj.finalizers, finalizer)));
  }

  /** Removing drops every occurrence and keeps the others in their order. */
  lemma {:induction false} WithoutKeepsOrder<T(!new)>(items: seq<T>, item: T) returns (kept: seq<nat>)
    ensures |kept| == |Without(items, item)|
    ensures forall i | 0 <= i < |kept| :: kept[i] < |items| && items[kept[i]] == Without(items, item)[i]
    ensures forall i, j | 0 <= i < j < |kept| :: kept[i] < kept[j]
    ensures forall k | 0 <= k < |items| :: items[k] != item <==> k in kept
    decreases |items|
  {
    if items == [] {
      kept := [];
    } else {
      var n := |items| - 1;
      kept := WithoutKeepsOrder(items[..n], item);
      if items[n] != item {
        kept := kept + [n];
      }
    }
  }

  /** Adding a finalizer that is not there and removing it again gives the list back. */
  lemma {:induction false} RemoveUndoesAdd(doc: Json, obj: Object, finalizer: string)
    requires Shows(doc, obj) && finalizer !in obj.finalizers
    ensures var added := Merge(doc, PrepareAddFinalizerPatch(obj, finalizer));
            var addedObj := obj.(finalizers := obj.finalizers + [finalizer]);
            && Shows(added, addedObj)
            && Merge(added, RemoveFinalizerPatch(addedObj, finalizer))
               == WithMetadata(doc, "finalizers", Strings(obj.finalizers))
  {
    var added := Merge(doc, PrepareAddFinalizerPatch(obj, finalizer));
    var addedObj := obj.(finalizers := obj.finalizers + [finalizer]);
    hide Merge;
    FinalizerPatchMeaning(doc, obj, finalizer);
    assert Shows(added, addedObj);
    FinalizerPatchMeaning(added, addedObj, finalizer);
    assert addedObj.finalizers[..|obj.finalizers|] == obj.finalizers;
    NothingToRemove(obj.finalizers, finalizer);
    SetTwice(doc, "finalizers", Strings(addedObj.finalizers), Strings(obj.finalizers));
  }

  lemma SetTwice(doc: Json, field: string, a: Json, b: Json)
    requires doc.JObject? && "metadata" in doc.fields && doc.fields["metadata"].JObject?
    ensures WithMetadata(WithMetadata(doc, field, a), field, b) == WithMetadata(doc, field, b)
  {
    var fields := doc.fields["metadata"].fields;
    assert fields[field := a][field := b] == fields[field := b];
    var once := WithMetadata(doc, field, a);
    assert once.fields["metadata" := JObject(fields[field := b])] == doc.fields["metadata" := JObject(fields[field := b])];
  }

  lemma {:induction false} NothingToRemove<T(!new)>(items: seq<T>, item: T)
    requires item !in items
    ensures Without(items, item) == items
    decreases |items|
  {
    if items != [] {
      NothingToRemove(items[..|items| - 1], item);
    }
  }
}
