/**
 * The new-session wizard: step 1 picks or uploads a product, step 2 picks a
 * prospect personality, step 3 creates the session and navigates to the live
 * call. Each asynchronous handler is split at its `await`: the part that runs
 * on the click, and the part that runs when the request settles, whose outcome
 * is a parameter.
 */
module SessionSetup {
  import opened Common
  import opened Personality
  import opened Sessions
  import opened Products

  /** A file picked in the upload form. */
  datatype PickedFile = PickedFile(filename: string, contents: seq<bv8>)

  /** The requests the wizard issues, and its navigation. */
  datatype SetupCommand =
    | UploadRequest(name: string, file: PickedFile)
    | ProductsRequest
    | PersonalitiesRequest
    | DeleteRequest(productId: int)
    | CreateRequest(productId: int, personalityType: string)
    | GoToCall(path: string, config: VapiConfig, personality: PersonalityEcho)

  /** The settled `uploadProduct` + `getProducts` pair: the new id and the refreshed list, or the error message. */
  datatype UploadOutcome = Uploaded(newId: int, refreshed: seq<ProductSummary>) | UploadFailed(message: string)

  /** The settled `createSession`: the created session, or the error message. */
  datatype StartOutcome = Started(session: Created) | StartFailed(message: string)

  datatype SetupState = SetupState(
    products: seq<ProductSummary>,
    personalities: seq<(string, Summary)>,
    selectedProduct: Option<int>,
    selectedPersonality: Option<string>,
    uploading: bool,
    creating: bool,
    uploadName: string,
    uploadFile: Option<PickedFile>,
    error: string,
    step: nat,
    commands: seq<SetupCommand>)

  /** The wizard's invariant: a step from 1 to 3, and step 3 only once a personality is chosen. */
  predicate Valid(s: SetupState)
  {
    1 <= s.step <= 3 && (s.step == 3 ==> s.selectedPersonality.Some?)
  }

  // ---------------------------------------------------------------------------
  // The transitions as functions of the state

  function Opened(): (s: SetupState)
    ensures Valid(s)
  {
    SetupState([], [], None, None, false, false, "", None, "", 1, [])
  }

  /** The two loads on mount, each stored only when it succeeds. */
  function Loaded(s: SetupState, products: Option<seq<ProductSummary>>, personalities: Option<seq<(string, Summary)>>): SetupState
  {
    s.(products := GetOr(products, s.products), personalities := GetOr(personalities, s.personalities))
  }

  /** A progress button: only an earlier step can be revisited. */
  function StepClicked(s: SetupState, n: nat): SetupState
  {
    if n < s.step then s.(step := n) else s
  }

  function ProductPicked(s: SetupState, id: int): SetupState
  {
    s.(selectedProduct := Some(id), step := 2)
  }

  function PersonalityPicked(s: SetupState, key: string): SetupState
  {
    s.(selectedPersonality := Some(key), step := 3)
  }

  /** The form can be submitted: a file is chosen and the trimmed name is not empty. */
  predicate CanUpload(s: SetupState)
  {
    s.uploadFile.Some? && Strip(s.uploadName) != ""
  }

  /** The synchronous part of `handleUpload`. */
  function UploadSubmitted(s: SetupState): SetupState
  {
    if !CanUpload(s) then s
    else s.(uploading := true, error := "", commands := s.commands + [UploadRequest(Strip(s.uploadName), s.uploadFile.value)])
  }

  /** The rest of `handleUpload`, once both requests have settled. */
  function UploadSettled(s: SetupState, o: UploadOutcome): SetupState
  {
    match o
    case Uploaded(id, refreshed) =>
      s.(products := refreshed, selectedProduct := Some(id), uploadName := "", uploadFile := None, step := 2,
         uploading := false)
    case UploadFailed(msg) => s.(error := msg, uploading := false)
  }

  /** The products with another id than `id`, in order (`products.filter(p => p.id !== id)`). */
  function Without(products: seq<ProductSummary>, id: int): (r: seq<ProductSummary>)
    ensures |r| <= |products|
    ensures forall p :: p in r <==> p in products && p.id != id
  {
    if products == [] then []
    else
      var rest := Without(products[1..], id);
      assert forall p :: p in products <==> p == products[0] || p in products[1..];
      if products[0].id != id then [products[0]] + rest else rest
  }

  /** The rest of `handleDelete`, once the delete succeeded; a failed delete stops the handler. */
  function DeleteSettled(s: SetupState, id: int, deleted: bool): SetupState
  {
    if !deleted then s
    else s.(products := Without(s.products, id),
            selectedProduct := if s.selectedProduct == Some(id) then None else s.selectedProduct)
  }

  /** `!selectedProduct || !selectedPersonality`: a product id 0 and an empty key count as missing. */
  predicate CanStart(s: SetupState)
  {
    s.selectedProduct.Some? && s.selectedProduct.value != 0 && Truthy(s.selectedPersonality)
  }

  /** The synchronous part of `handleStart`. */
  function StartClicked(s: SetupState): SetupState
  {
    if !CanStart(s) then s
    else s.(creating := true, error := "",
            commands := s.commands + [CreateRequest(s.selectedProduct.value, s.selectedPersonality.value)])
  }

  function CallPath(sessionId: int): string
  {
    "/call/" + IntToString(sessionId)
  }

  /** The rest of `handleStart`: navigate to the call with the launch configuration, or show the error. */
  function StartSettled(s: SetupState, o: StartOutcome): SetupState
  {
    match o
    case Started(c) =>
      s.(creating := false, commands := s.commands + [GoToCall(CallPath(c.sessionId), c.config, c.personality)])
    case StartFailed(msg) => s.(creating := false, error := msg)
  }

  // ---------------------------------------------------------------------------
  // Properties

  /** Every handler keeps the wizard's invariant. */
  lemma HandlersKeepValid(s: SetupState, n: nat, id: int, key: string, u: UploadOutcome, deleted: bool, o: StartOutcome)
    requires Valid(s)
    ensures 1 <= n ==> Valid(StepClicked(s, n))
    ensures Valid(ProductPicked(s, id)) && Valid(PersonalityPicked(s, key))
    ensures Valid(UploadSubmitted(s)) && Valid(UploadSettled(s, u)) && Valid(DeleteSettled(s, id, deleted))
    ensures Valid(StartClicked(s)) && Valid(StartSettled(s, o))
  {
  }

  /** The progress buttons only move back, and only to a step that is shown as reached. */
  lemma StepButtonsGoBack(s: SetupState, n: nat)
    ensures StepClicked(s, n).step <= s.step
    ensures StepClicked(s, n).step != s.step ==> StepClicked(s, n).step == n && n < s.step
  {
  }

  /** Nothing is sent without a file and a non-blank name; otherwise exactly one upload of the trimmed name. */
  lemma UploadGuard(s: SetupState)
    ensures !CanUpload(s) ==> UploadSubmitted(s) == s
    ensures CanUpload(s) ==>
      var t := UploadSubmitted(s);
      && t.commands == s.commands + [UploadRequest(Strip(s.uploadName), s.uploadFile.value)]
      && t.uploading && t.error == ""
  {
  }

  /** A blank name (only white space) never uploads. */
  lemma BlankNameBlocks(s: SetupState)
    requires forall i :: 0 <= i < |s.uploadName| ==> IsSpace(s.uploadName[i])
    ensures UploadSubmitted(s) == s
  {
    NoNonSpace(s.uploadName);
    BlankIffEmpty(s.uploadName);
  }

  /** A name trims to nothing exactly when it has no non-space character. */
  lemma BlankIffEmpty(s: string)
    ensures Strip(s) == "" <==> NonSpace(s) == 0
  {
    StripKeepsNonSpace(s);
  }

  lemma {:induction false} NoNonSpace(s: string)
    requires forall i :: 0 <= i < |s| ==> IsSpace(s[i])
    ensures NonSpace(s) == 0
  {
    if s != [] {
      NoNonSpace(s[..|s| - 1]);
    }
  }

  /** A successful upload selects the new product, clears the form and moves to step 2; a failure keeps the form. */
  lemma UploadOutcomes(s: SetupState, u: UploadOutcome)
    ensures var t := UploadSettled(s, u);
      && !t.uploading
      && (u.Uploaded? ==> t.selectedProduct == Some(u.newId) && t.step == 2 && t.uploadName == ""
                          && t.uploadFile.None? && t.products == u.refreshed)
      && (u.UploadFailed? ==> t.error == u.message && t.uploadName == s.uploadName && t.uploadFile == s.uploadFile
                              && t.step == s.step && t.products == s.products)
  {
  }

  /** A delete removes exactly that product and clears the selection exactly when it was selected. */
  lemma DeleteOutcome(s: SetupState, id: int)
    ensures var t := DeleteSettled(s, id, true);
      && (forall p :: p in t.products <==> p in s.products && p.id != id)
      && (t.selectedProduct.None? <==> s.selectedProduct.None? || s.selectedProduct == Some(id))
      && (s.selectedProduct != Some(id) ==> t.selectedProduct == s.selectedProduct)
  {
  }

  /** A session is requested exactly when both choices are made, with exactly those choices. */
  lemma StartGuard(s: SetupState)
    ensures StartClicked(s) != s <==> CanStart(s)
    ensures CanStart(s) ==>
      StartClicked(s).commands == s.commands + [CreateRequest(s.selectedProduct.value, s.selectedPersonality.value)]
  {
    if CanStart(s) {
      assert |StartClicked(s).commands| == |s.commands| + 1;
    }
  }

  /** A created session leads to its call page with the launch configuration; the wizard is ready again. */
  lemma StartOutcomes(s: SetupState, o: StartOutcome)
    ensures var t := StartSettled(s, o);
      && !t.creating
      && (o.Started? ==> t.commands[|t.commands| - 1] == GoToCall(CallPath(o.session.sessionId), o.session.config,
                                                                     o.session.personality)
                         && t.error == s.error)
      && (o.StartFailed? ==> t.error == o.message && t.commands == s.commands)
  {
  }

  /** The call page's address carries the session id, read back as a number. */
  lemma CallPathCarriesId(sessionId: nat)
    ensures var p := CallPath(sessionId);
      p[..6] == "/call/" && AllDigits(p[6..]) && ParseNat(p[6..]) == sessionId
  {
    var p := CallPath(sessionId);
    assert p[6..] == NatToString(sessionId);
    ParseNatToString(sessionId);
  }

  // ---------------------------------------------------------------------------
  // Step 3's summary

  /** `products.find(p => p.id === selectedProduct)?.name`. */
  function ChosenProductName(products: seq<ProductSummary>, selected: Option<int>): (r: Option<string>)
    ensures r.Some? <==> selected.Some? && exists p :: p in products && p.id == selected.value
    ensures r.Some? ==> exists p :: p in products && p.id == selected.value && p.name == r.value
  {
    if selected.None? || products == [] then None
    else if products[0].id == selected.value then Some(products[0].name)
    else
      var rest := ChosenProductName(products[1..], selected);
      assert forall p :: p in products[1..] ==> p in products;
      assert forall p :: p in products && p != products[0] ==> p in products[1..];
      rest
  }

  /** `personalities[selectedPersonality]?.label`. */
  function ChosenPersonalityLabel(personalities: seq<(string, Summary)>, selected: Option<string>): (r: Option<string>)
    ensures r.Some? <==> selected.Some? && exists i :: 0 <= i < |personalities| && personalities[i].0 == selected.value
  {
    if selected.None? || personalities == [] then None
    else if personalities[0].0 == selected.value then Some(personalities[0].1.labelText)
    else
      var rest := ChosenPersonalityLabel(personalities[1..], selected);
      assert forall i :: 1 <= i < |personalities| ==> personalities[1..][i - 1] == personalities[i];
      rest
  }

  /** With the listing the backend serves, every known key shows its own label. */
  lemma {:induction false} KnownKeyShowsLabel(k: Kind)
    ensures ChosenPersonalityLabel(AllPersonalities(), Some(Key(k))) == Some(Label(k))
  {
    KeysInOrder();
    KeyNamesKind(k);
    var i :| 0 <= i < |Kinds| && Kinds[i] == k;
    LabelAt(AllPersonalities(), Key(k), Label(k), i);
  }

  lemma {:induction false} LabelAt(ps: seq<(string, Summary)>, key: string, l: string, i: nat)
    requires i < |ps| && ps[i].0 == key && ps[i].1.labelText == l
    requires forall j :: 0 <= j < i ==> ps[j].0 != key
    ensures ChosenPersonalityLabel(ps, Some(key)) == Some(l)
    decreases i
  {
    if i > 0 {
      LabelAt(ps[1..], key, l, i - 1);
    }
  }

  // ---------------------------------------------------------------------------
  // The page as an object

  class SetupWizard {
    var products: seq<ProductSummary>
    var personalities: seq<(string, Summary)>
    var selectedProduct: Option<int>
    var selectedPersonality: Option<string>
    var uploading: bool
    var creating: bool
    var uploadName: string
    var uploadFile: Option<PickedFile>
    var error: string
    var step: nat
    var commands: seq<SetupCommand>

    function State(): SetupState
      reads this
    {
      SetupState(products, personalities, selectedProduct, selectedPersonality, uploading, creating, uploadName,
        uploadFile, error, step, commands)
    }

    /** Mounting the page: empty state at step 1, and both lists requested, products first. */
    constructor ()
      ensures State() == Opened().(commands := [ProductsRequest, PersonalitiesRequest])
    {
      products, personalities, selectedProduct, selectedPersonality := [], [], None, None;
      uploading, creating, uploadName, uploadFile, error, step := false, false, "", None, "", 1;
      commands := [ProductsRequest, PersonalitiesRequest];
    }

    method Load(ps: Option<seq<ProductSummary>>, kinds: Option<seq<(string, Summary)>>)
      modifies this
      ensures State() == Loaded(old(State()), ps, kinds)
    {
      if ps.Some? {
        products := ps.value;
      }
      if kinds.Some? {
        personalities := kinds.value;
      }
    }

    method EditName(name: string)
      modifies this
      ensures State() == old(State()).(uploadName := name)
    {
      uploadName := name;
    }

    method PickFile(f: Option<PickedFile>)
      modifies this
      ensures State() == old(State()).(uploadFile := f)
    {
      uploadFile := f;
    }

    method ClickStep(n: nat)
      modifies this
      ensures State() == StepClicked(old(State()), n)
    {
      if n < step {
        step := n;
      }
    }

    method SelectProduct(id: int)
      modifies this
      ensures State() == ProductPicked(old(State()), id)
    {
      selectedProduct := Some(id);
      step := 2;
    }

    method SelectPersonality(key: string)
      modifies this
      ensures State() == PersonalityPicked(old(State()), key)
    {
      selectedPersonality := Some(key);
      step := 3;
    }

    method SubmitUpload()
      modifies this
      ensures State() == UploadSubmitted(old(State()))
    {
      if uploadFile.None? || Strip(uploadName) == "" {
        return;
      }
      uploading := true;
      error := "";
      commands := commands + [UploadRequest(Strip(uploadName), uploadFile.value)];
    }

    method FinishUpload(o: UploadOutcome)
      modifies this
      ensures State() == UploadSettled(old(State()), o)
    {
      match o {
        case Uploaded(id, refreshed) =>
          products := refreshed;
          selectedProduct := Some(id);
          uploadName := "";
          uploadFile := None;
          step := 2;
        case UploadFailed(msg) =>
          error := msg;
      }
      uploading := false;
    }

    method ClickDelete(id: int)
      modifies this
      ensures State() == old(State()).(commands := old(commands) + [DeleteRequest(id)])
    {
      commands := commands + [DeleteRequest(id)];
    }

    method FinishDelete(id: int, deleted: bool)
      modifies this
      ensures State() == DeleteSettled(old(State()), id, deleted)
    {
      if !deleted {
        return;
      }
      var kept := Filtered(products, id);
      products := kept;
      selectedProduct := if selectedProduct == Some(id) then None else selectedProduct;
    }

    method ClickStart()
      modifies this
      ensures State() == StartClicked(old(State()))
    {
      if selectedProduct.None? || selectedProduct.value == 0 || !Truthy(selectedPersonality) {
        return;
      }
      creating := true;
      error := "";
      commands := commands + [CreateRequest(selectedProduct.value, selectedPersonality.value)];
    }

    method FinishStart(o: StartOutcome)
      modifies this
      ensures State() == StartSettled(old(State()), o)
    {
      match o {
        case Started(c) =>
          commands := commands + [GoToCall(CallPath(c.sessionId), c.config, c.personality)];
        case StartFailed(msg) =>
          error := msg;
      }
      creating := false;
    }
  }

  /** `products.filter(p => p.id !== id)`, element by element. */
  method Filtered(ps: seq<ProductSummary>, id: int) returns (kept: seq<ProductSummary>)
    ensures kept == Without(ps, id)
  {
    kept := [];
    for i := 0 to |ps|
      invariant kept == Without(ps[..i], id)
    {
      WithoutSnoc(ps[..i], ps[i], id);
      assert ps[..i + 1] == ps[..i] + [ps[i]];
      if ps[i].id != id {
        kept := kept + [ps[i]];
      }
    }
    assert ps[..|ps|] == ps;
  }

  /** Filtering one more product keeps it exactly when its id differs. */
  lemma {:induction false} WithoutSnoc(ps: seq<ProductSummary>, p: ProductSummary, id: int)
    ensures Without(ps + [p], id) == Without(ps, id) + (if p.id != id then [p] else [])
    decreases |ps|
  {
    if ps == [] {
      assert [p][1..] == [];
    } else {
      assert (ps + [p])[1..] == ps[1..] + [p];
      WithoutSnoc(ps[1..], p, id);
    }
  }
}
