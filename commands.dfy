/**
 * The `generate`, `edit` and `set-key` commands. Each one compiles its prompt,
 * asks the image service, writes and validates what comes back, retries once
 * with the strengthened prompt when validation fails, and records the result
 * in the session file. The image service, the disk, the clock and the
 * environment are given from outside.
 */
module Commands {
  import opened Wrappers
  import opened Caseless
  import opened PromptTexts
  import opened PromptCompiler
  import opened Validators
  import opened Storage

  const DefaultModel := "gpt-image-1"

  /** `_get_model`: the explicit model unless it is empty, else the value of
      `OPENAI_IMAGE_MODEL`, else the default model. */
  function ResolveModel(model: Option<string>, modelVariable: Option<string>): (r: string)
    ensures model.Some? && model.value != [] ==> r == model.value
    ensures (model.None? || model.value == []) ==> r == modelVariable.GetOr(DefaultModel)
  {
    if model.Some? && model.value != [] then model.value else modelVariable.GetOr(DefaultModel)
  }

  /** What the commands read from outside: the output directory, the
      `OPENAI_IMAGE_MODEL` variable, the clock (the `%Y-%m-%d_%H%M%S` stamp
      read while naming variant `i`, and the ISO time of the session update)
      and the order in which the banned-word set is iterated. */
  datatype Environment = Environment(
    outputDir: string,
    modelVariable: Option<string>,
    stampAt: nat -> string,
    now: string,
    bannedOrder: seq<string>)

  /** `out_dir / filename`. */
  function JoinPath(dir: string, name: string): string {
    dir + "/" + name
  }

  // ---------------------------------------------------------------------------
  // Oracles
  // ---------------------------------------------------------------------------

  /** The answer to one request: the decoded image, or an exception once the
      client's own retry is spent. */
  datatype Reply = Delivered(image: Image) | Failed

  datatype Request =
    | GenerateRequest(prompt: string, model: Option<string>)
    | EditRequest(source: string, prompt: string, model: Option<string>)

  /** The reply to the `k`-th request; past the end of the script every
      request fails. */
  function ReplyAt(script: seq<Reply>, k: nat): Reply {
    if k < |script| then script[k] else Failed
  }

  /** The image service: the `k`-th request it receives, of either kind, gets
      `ReplyAt(script, k)`, and every request is logged in order. */
  class ImageService {
    const script: seq<Reply>
    var requests: seq<Request>

    constructor (script: seq<Reply>)
      ensures this.script == script && requests == []
    {
      this.script := script;
      requests := [];
    }

    /** `generate_image`. */
    method GenerateImage(prompt: string, model: Option<string>) returns (reply: Reply)
      modifies this
      ensures requests == old(requests) + [GenerateRequest(prompt, model)]
      ensures reply == ReplyAt(script, |old(requests)|)
    {
      reply := ReplyAt(script, |requests|);
      requests := requests + [GenerateRequest(prompt, model)];
    }

    /** `edit_image`. */
    method EditImage(source: string, prompt: string, model: Option<string>) returns (reply: Reply)
      modifies this
      ensures requests == old(requests) + [EditRequest(source, prompt, model)]
      ensures reply == ReplyAt(script, |old(requests)|)
    {
      reply := ReplyAt(script, |requests|);
      requests := requests + [EditRequest(source, prompt, model)];
    }
  }

  /** The image files on disk, by path, as the validator decodes them. */
  class Disk {
    var images: map<string, Image>

    constructor (images: map<string, Image>)
      ensures this.images == images
    {
      this.images := images;
    }

    /** `save_image` and `Path.write_bytes`: the file at `path` now holds
        `image`, whatever it held before. */
    method Write(path: string, image: Image)
      modifies this
      ensures images == old(images)[path := image]
    {
      images := images[path := image];
    }
  }

  // ---------------------------------------------------------------------------
  // The retry policy
  // ---------------------------------------------------------------------------

  /** The requests one image takes, and the image it ends with (`None` when a
      request raised). */
  datatype Attempts = Attempts(count: nat, image: Option<Image>)

  /** Validate the first image (`Acceptable` is what `validate` reports `ok`);
      if it fails, request once more with the strengthened prompt and keep
      that image whatever its validation says. */
  function RetryPolicy(first: Reply, second: Reply): Attempts {
    if first.Failed? then Attempts(1, None)
    else if Acceptable(first.image) then Attempts(1, Some(first.image))
    else Attempts(2, if second.Delivered? then Some(second.image) else None)
  }

  /** One or two requests; the second is made exactly when the first image
      fails validation; the image kept is the last one delivered, and there is
      none exactly when a request raised. */
  lemma RetryPolicyMeaning(first: Reply, second: Reply)
    ensures var a := RetryPolicy(first, second);
      && 1 <= a.count <= 2
      && (a.count == 2 <==> first.Delivered? && !Validation(first.image).Ok())
      && (a.image.Some? <==> first.Delivered? && (Validation(first.image).Ok() || second.Delivered?))
      && (a.count == 2 && a.image.Some? ==> a.image.value == second.image)
      && (a.count == 1 && a.image.Some? ==> a.image.value == first.image)
  {
    if first.Delivered? {
      ValidationMeaning(first.image);
    }
  }

  /** The prompts sent for one image: the prompt, then, on a retry, the
      prompt with the strengthened suffix. */
  function Sent(prompt: string, count: nat): seq<string> {
    if count == 1 then [prompt] else [prompt, prompt + StrengthenedSuffix()]
  }

  /** A run of the variant loop: the prompts sent, the image each variant ends
      with, and whether a request raised. */
  datatype Run = Run(sent: seq<string>, images: seq<Image>, failed: bool)

  /** The variant loop over `prompts`, when the service's replies start at
      `script[n]`. It stops at the first request that raises. */
  function RunVariants(prompts: seq<string>, script: seq<Reply>, n: nat): (r: Run)
    ensures !r.failed ==> |r.images| == |prompts| && |prompts| <= |r.sent|
    ensures |r.sent| <= 2 * |prompts|
    ensures r.failed ==> prompts != []
    decreases |prompts|
  {
    if prompts == [] then Run([], [], false)
    else
      var front := RunVariants(prompts[..|prompts| - 1], script, n);
      if front.failed then front
      else
        var k := n + |front.sent|;
        var a := RetryPolicy(ReplyAt(script, k), ReplyAt(script, k + 1));
        var sent := front.sent + Sent(prompts[|prompts| - 1], a.count);
        match a.image
        case Some(image) => Run(sent, front.images + [image], false)
        case None => Run(sent, front.images, true)
  }

  /** Once a run has failed, later prompts change nothing: no further request
      is sent. */
  lemma {:induction false} FailedRunStops(prompts: seq<string>, script: seq<Reply>, n: nat, i: nat)
    requires i <= |prompts| && RunVariants(prompts[..i], script, n).failed
    ensures RunVariants(prompts, script, n) == RunVariants(prompts[..i], script, n)
    decreases |prompts| - i
  {
    if i < |prompts| {
      assert prompts[..i + 1][..i] == prompts[..i];
      FailedRunStops(prompts, script, n, i + 1);
    } else {
      assert prompts[..i] == prompts;
    }
  }

  /** One more prompt after a run that has not failed: its attempts are
      appended to the run. */
  lemma RunVariantsStep(prompts: seq<string>, script: seq<Reply>, n: nat, i: nat, front: Run, k: nat, a: Attempts)
    requires i < |prompts| && front == RunVariants(prompts[..i], script, n) && !front.failed
    requires k == n + |front.sent| && a == RetryPolicy(ReplyAt(script, k), ReplyAt(script, k + 1))
    ensures RunVariants(prompts[..i + 1], script, n)
         == Run(front.sent + Sent(prompts[i], a.count),
                if a.image.Some? then front.images + [a.image.value] else front.images,
                a.image.None?)
  {
    var p := prompts[..i + 1];
    assert p[..|p| - 1] == prompts[..i];
    assert p[|p| - 1] == prompts[i];
  }

  predicate NoBannedWord(text: string) {
    !Contains(text, Petal) && !Contains(text, Petals)
  }

  /** No request of the variant loop carries a banned word when none of the
      compiled prompts does. */
  lemma {:induction false} RunVariantsClean(prompts: seq<string>, script: seq<Reply>, n: nat)
    requires forall k :: 0 <= k < |prompts| ==> NoBannedWord(prompts[k])
    ensures forall k :: 0 <= k < |RunVariants(prompts, script, n).sent| ==>
      NoBannedWord(RunVariants(prompts, script, n).sent[k])
    decreases |prompts|
  {
    if prompts != [] {
      var front := prompts[..|prompts| - 1];
      RunVariantsClean(front, script, n);
      RetryPromptClean(prompts[|prompts| - 1]);
    }
  }

  /** The request for `prompt`: an edit of `source` when there is one, else
      a generation. */
  function RequestFor(source: Option<string>, prompt: string, model: Option<string>): Request {
    if source.Some? then EditRequest(source.value, prompt, model) else GenerateRequest(prompt, model)
  }

  function RequestsFor(source: Option<string>, sent: seq<string>, model: Option<string>): (rs: seq<Request>)
    ensures |rs| == |sent|
  {
    seq(|sent|, k requires 0 <= k < |sent| => RequestFor(source, sent[k], model))
  }

  lemma RequestsForAppend(source: Option<string>, a: seq<string>, b: seq<string>, model: Option<string>)
    ensures RequestsFor(source, a + b, model) == RequestsFor(source, a, model) + RequestsFor(source, b, model)
  {
    assert forall k :: 0 <= k < |a| ==> (a + b)[k] == a[k];
    assert forall k :: |a| <= k < |a| + |b| ==> (a + b)[k] == b[k - |a|];
  }

  /** The request for `prompt`, `edit_image` when there is a source and
      `generate_image` otherwise. */
  method RequestImage(source: Option<string>, prompt: string, model: Option<string>, service: ImageService)
    returns (reply: Reply)
    modifies service
    ensures service.requests == old(service.requests) + [RequestFor(source, prompt, model)]
    ensures reply == ReplyAt(service.script, |old(service.requests)|)
  {
    if source.Some? {
      reply := service.EditImage(source.value, prompt, model);
    } else {
      reply := service.GenerateImage(prompt, model);
    }
  }

  /** `validate(path).ok` on the image just written there. */
  method ValidatedOk(img: Image) returns (ok: bool)
    ensures ok <==> Acceptable(img)
  {
    var result := Validate(img);
    ValidationMeaning(img);
    ok := result.Ok();
  }

  /** The requests for the prompts of one image, one or two. */
  lemma RequestsForSent(source: Option<string>, prompt: string, model: Option<string>)
    ensures RequestsFor(source, Sent(prompt, 1), model) == [RequestFor(source, prompt, model)]
    ensures RequestsFor(source, Sent(prompt, 2), model)
         == [RequestFor(source, prompt, model), RequestFor(source, prompt + StrengthenedSuffix(), model)]
  {
  }

  /** One image of a command: request it, write it to `path`, validate it, and
      when validation fails request once more with the strengthened prompt and
      write that image over the first, whatever its validation says. */
  method RequestValidated(source: Option<string>, prompt: string, model: Option<string>, path: string,
                          service: ImageService, disk: Disk)
    returns (image: Option<Image>, ghost attempts: Attempts)
    modifies service, disk
    ensures
      var k := |old(service.requests)|;
      attempts == RetryPolicy(ReplyAt(service.script, k), ReplyAt(service.script, k + 1))
    ensures service.requests == old(service.requests) + RequestsFor(source, Sent(prompt, attempts.count), model)
    ensures image == attempts.image
    ensures image.Some? ==> disk.images == old(disk.images)[path := image.value]
  {
    ghost var k := |service.requests|;
    attempts := RetryPolicy(ReplyAt(service.script, k), ReplyAt(service.script, k + 1));
    RequestsForSent(source, prompt, model);
    var reply := RequestImage(source, prompt, model, service);
    if reply.Failed? {
      image := None;
      return;
    }
    disk.Write(path, reply.image);
    var ok := ValidatedOk(reply.image);
    if ok {
      image := Some(reply.image);
      return;
    }
    reply := RequestImage(source, prompt + StrengthenedSuffix(), model, service);
    if reply.Failed? {
      image := None;
      return;
    }
    disk.Write(path, reply.image);
    ok := ValidatedOk(reply.image);
    image := Some(reply.image);
  }

  // ---------------------------------------------------------------------------
  // generate
  // ---------------------------------------------------------------------------

  /** The compiled prompts of `build_prompts`. */
  function Prompts(order: seq<string>, description: string, variants: int): (prompts: seq<string>)
    requires IsBannedOrder(order)
    ensures |prompts| == if variants > 0 then variants else 0
  {
    var count := if variants > 0 then variants else 0;
    seq(count, i requires 0 <= i < count => Prompt(order, description, i))
  }

  /** The path of variant `i`, numbered from 1. */
  function VariantPath(env: Environment, description: string, i: nat): string {
    JoinPath(env.outputDir, BuildFilename(env.stampAt(i), description, i))
  }

  /** The paths of the first `count` variants. */
  function VariantPaths(env: Environment, description: string, count: nat): (paths: seq<string>)
    ensures |paths| == count
  {
    if count == 0 then [] else VariantPaths(env, description, count - 1) + [VariantPath(env, description, count)]
  }

  /** The disk after writing `images[k]` to `paths[k]`, in order. */
  function Written(m: map<string, Image>, paths: seq<string>, images: seq<Image>): map<string, Image>
    requires |paths| == |images|
    decreases |paths|
  {
    if paths == [] then m
    else
      Written(m, paths[..|paths| - 1], images[..|images| - 1])[paths[|paths| - 1] := images[|images| - 1]]
  }

  datatype GenerateOutcome = Generated(paths: seq<string>) | GenerationFailed

  /** The variant loop of `_generate`: each prompt in turn gets its image,
      written to the next variant path, until a request raises. */
  method GenerateVariants(prompts: seq<string>, description: string, model: Option<string>,
                          env: Environment, service: ImageService, disk: Disk)
    returns (saved: seq<string>, failed: bool)
    modifies service, disk
    ensures
      var run := RunVariants(prompts, service.script, |old(service.requests)|);
      && service.requests == old(service.requests) + RequestsFor(None, run.sent, model)
      && failed == run.failed
      && (!failed ==>
            && saved == VariantPaths(env, description, |prompts|)
            && disk.images == Written(old(disk.images), saved, run.images))
  {
    ghost var start := |service.requests|;
    ghost var before := disk.images;
    ghost var run := Run([], [], false);
    saved := [];
    var i := 0;
    while i < |prompts|
      invariant 0 <= i <= |prompts|
      invariant run == RunVariants(prompts[..i], service.script, start) && !run.failed
      invariant service.requests == old(service.requests) + RequestsFor(None, run.sent, model)
      invariant saved == VariantPaths(env, description, i)
      invariant disk.images == Written(before, saved, run.images)
    {
      var path := VariantPath(env, description, i + 1);
      var image;
      ghost var next;
      image, next := GenerateVariant(prompts, i, model, path, service, disk, old(service.requests), run);
      if image.None? {
        FailedRunStops(prompts, service.script, start, i + 1);
        return saved, true;
      }
      WrittenSnoc(before, saved, run.images, path, image.value);
      run := next;
      saved := saved + [path];
      i := i + 1;
    }
    assert prompts[..i] == prompts;
    failed := false;
  }

  /** One turn of the variant loop: the image of `prompts[i]`, written to
      `path`, extends the run by one prompt. */
  method GenerateVariant(prompts: seq<string>, i: nat, model: Option<string>, path: string,
                         service: ImageService, disk: Disk, ghost initial: seq<Request>, ghost run: Run)
    returns (image: Option<Image>, ghost next: Run)
    requires i < |prompts| && run == RunVariants(prompts[..i], service.script, |initial|) && !run.failed
    requires service.requests == initial + RequestsFor(None, run.sent, model)
    modifies service, disk
    ensures next == RunVariants(prompts[..i + 1], service.script, |initial|)
    ensures service.requests == initial + RequestsFor(None, next.sent, model)
    ensures next.failed <==> image.None?
    ensures image.Some? ==> next.images == run.images + [image.value]
    ensures image.Some? ==> disk.images == old(disk.images)[path := image.value]
  {
    ghost var sentBefore := service.requests;
    ghost var a;
    image, a := RequestValidated(None, prompts[i], model, path, service, disk);
    LoopStep(prompts, service.script, i, run, a, initial, sentBefore, service.requests, model);
    next := RunVariants(prompts[..i + 1], service.script, |initial|);
  }

  /** One turn of the variant loop keeps the request log equal to the run's
      requests. */
  lemma LoopStep(prompts: seq<string>, script: seq<Reply>, i: nat, run: Run, a: Attempts,
                 initial: seq<Request>, sentBefore: seq<Request>, sentAfter: seq<Request>,
                 model: Option<string>)
    requires i < |prompts| && run == RunVariants(prompts[..i], script, |initial|) && !run.failed
    requires sentBefore == initial + RequestsFor(None, run.sent, model)
    requires a == RetryPolicy(ReplyAt(script, |sentBefore|), ReplyAt(script, |sentBefore| + 1))
    requires sentAfter == sentBefore + RequestsFor(None, Sent(prompts[i], a.count), model)
    ensures
      var next := RunVariants(prompts[..i + 1], script, |initial|);
      && sentAfter == initial + RequestsFor(None, next.sent, model)
      && next.sent == run.sent + Sent(prompts[i], a.count)
      && (next.failed <==> a.image.None?)
      && (a.image.Some? ==> next == Run(next.sent, run.images + [a.image.value], false))
  {
    var k := |sentBefore|;
    assert k == |initial| + |run.sent|;
    RunVariantsStep(prompts, script, |initial|, i, run, k, a);
    var next := RunVariants(prompts[..i + 1], script, |initial|);
    assert next.sent == run.sent + Sent(prompts[i], a.count);
    RequestsExtend(initial, run.sent, Sent(prompts[i], a.count), model, sentBefore, sentAfter);
  }

  /** Requests appended after those of `front` are those of the longer run. */
  lemma RequestsExtend(initial: seq<Request>, front: seq<string>, more: seq<string>, model: Option<string>,
                       before: seq<Request>, after: seq<Request>)
    requires before == initial + RequestsFor(None, front, model)
    requires after == before + RequestsFor(None, more, model)
    ensures after == initial + RequestsFor(None, front + more, model)
  {
    RequestsForAppend(None, front, more, model);
    assert after == initial + (RequestsFor(None, front, model) + RequestsFor(None, more, model));
  }

  lemma WrittenSnoc(m: map<string, Image>, paths: seq<string>, images: seq<Image>, path: string, image: Image)
    requires |paths| == |images|
    ensures Written(m, paths + [path], images + [image]) == Written(m, paths, images)[path := image]
  {
    assert (paths + [path])[..|paths|] == paths;
    assert (images + [image])[..|images|] == images;
  }

  /** `_generate`. */
  method Generate(description: string, variants: int, model: Option<string>, env: Environment,
                  service: ImageService, disk: Disk, store: SessionStore)
    returns (outcome: GenerateOutcome)
    requires IsBannedOrder(env.bannedOrder)
    modifies service, disk, store
    ensures
      var prompts := Prompts(env.bannedOrder, description, variants);
      var run := RunVariants(prompts, service.script, |old(service.requests)|);
      && service.requests == old(service.requests) + RequestsFor(None, run.sent, model)
      && (run.failed ==> outcome == GenerationFailed && store.file == old(store.file))
      && (!run.failed ==>
            && outcome == Generated(VariantPaths(env, description, |prompts|))
            && disk.images == Written(old(disk.images), outcome.paths, run.images)
            && store.file == Stored(AfterGenerate(LoadSession(old(store.file)), outcome.paths,
                                                  description, ResolveModel(model, env.modelVariable),
                                                  env.now)))
  {
    var prompts := BuildPrompts(env.bannedOrder, description, variants);
    assert prompts == Prompts(env.bannedOrder, description, variants);
    var saved, failed := GenerateVariants(prompts, description, model, env, service, disk);
    if failed {
      return GenerationFailed;
    }
    store.UpdateAfterGenerate(saved, description, ResolveModel(model, env.modelVariable), env.now);
    outcome := Generated(saved);
  }

  /** Joining onto one directory keeps distinct names distinct. */
  lemma JoinPathInjective(dir: string, a: string, b: string)
    requires a != b
    ensures JoinPath(dir, a) != JoinPath(dir, b)
  {
    var prefix := dir + "/";
    assert JoinPath(dir, a) == prefix + a && JoinPath(dir, b) == prefix + b;
    if |a| == |b| {
      var i :| 0 <= i < |a| && a[i] != b[i];
      assert (prefix + a)[|prefix| + i] != (prefix + b)[|prefix| + i];
    }
  }

  /** Names that end with different numbers give different paths. */
  lemma NumberedPathsDistinct(dir: string, a: string, b: string)
    requires VariantNumber(a) != VariantNumber(b)
    ensures JoinPath(dir, a) != JoinPath(dir, b)
  {
    JoinPathInjective(dir, a, b);
  }

  /** Distinct variants are written to distinct paths. */
  lemma VariantPathsDistinct(env: Environment, description: string, i: nat, j: nat)
    requires i != j
    ensures VariantPath(env, description, i) != VariantPath(env, description, j)
  {
    var a := BuildFilename(env.stampAt(i), description, i);
    var b := BuildFilename(env.stampAt(j), description, j);
    VariantRoundTrip(env.stampAt(i), description, i);
    VariantRoundTrip(env.stampAt(j), description, j);
    NumberedPathsDistinct(env.outputDir, a, b);
  }

  /** After the loop each path holds the image its variant ended with. */
  lemma {:induction false} WrittenHolds(m: map<string, Image>, paths: seq<string>, images: seq<Image>, k: nat)
    requires |paths| == |images| && k < |paths|
    requires forall i, j :: 0 <= i < j < |paths| ==> paths[i] != paths[j]
    ensures paths[k] in Written(m, paths, images) && Written(m, paths, images)[paths[k]] == images[k]
    decreases |paths|
  {
    if k < |paths| - 1 {
      WrittenHolds(m, paths[..|paths| - 1], images[..|images| - 1], k);
    }
  }

  lemma {:induction false} VariantPathAt(env: Environment, description: string, count: nat, k: nat)
    requires k < count
    ensures VariantPaths(env, description, count)[k] == VariantPath(env, description, k + 1)
  {
    if k < count - 1 {
      VariantPathAt(env, description, count - 1, k);
    }
  }

  /** The paths of one `generate` are pairwise distinct. */
  lemma VariantPathsAllDistinct(env: Environment, description: string, count: nat)
    ensures forall i, j :: 0 <= i < j < count ==>
      VariantPaths(env, description, count)[i] != VariantPaths(env, description, count)[j]
  {
    var paths := VariantPaths(env, description, count);
    forall i, j | 0 <= i < j < count
      ensures paths[i] != paths[j]
    {
      VariantPathAt(env, description, count, i);
      VariantPathAt(env, description, count, j);
      VariantPathsDistinct(env, description, i + 1, j + 1);
    }
  }

  /** Each generated image is on disk under the path recorded for its
      variant. */
  lemma GeneratedImagesOnDisk(m: map<string, Image>, env: Environment, description: string,
                              images: seq<Image>, k: nat)
    requires k < |images|
    ensures
      var paths := VariantPaths(env, description, |images|);
      paths[k] in Written(m, paths, images) && Written(m, paths, images)[paths[k]] == images[k]
  {
    VariantPathsAllDistinct(env, description, |images|);
    WrittenHolds(m, VariantPaths(env, description, |images|), images, k);
  }

  /** Every request of a `generate` is free of banned words. */
  lemma GenerateRequestsClean(order: seq<string>, description: string, variants: int,
                              script: seq<Reply>, n: nat)
    requires IsBannedOrder(order)
    ensures
      var sent := RunVariants(Prompts(order, description, variants), script, n).sent;
      forall k :: 0 <= k < |sent| ==> NoBannedWord(sent[k])
  {
    var prompts := Prompts(order, description, variants);
    forall k | 0 <= k < |prompts|
      ensures NoBannedWord(prompts[k])
    {
      PromptIsClean(order, description, k);
    }
    RunVariantsClean(prompts, script, n);
  }

  // ---------------------------------------------------------------------------
  // edit
  // ---------------------------------------------------------------------------

  /** The image an edit starts from: the given path, else the first image of
      the last generation, if there is one. */
  function ResolveSource(sourcePath: Option<string>, session: Session): (source: Option<string>)
    ensures sourcePath.Some? ==> source == sourcePath
    ensures sourcePath.None? ==> (source.None? <==> session.lastGenerated == [])
    ensures sourcePath.None? && source.Some? ==> source.value == session.lastGenerated[0]
  {
    if sourcePath.Some? then sourcePath
    else if session.lastGenerated == [] then None
    else Some(session.lastGenerated[0])
  }

  /** The number of the next edit: the stored count, 0 when absent, plus 1. */
  function NextEditNumber(session: Session): int {
    session.editCount.GetOr(0) + 1
  }

  datatype EditOutcome =
    | Edited(path: string)
    | NoPreviousGeneration
    | SourceMissing(source: string)
    | EditFailed

  /** `_edit`; the two exits with status 1 are `NoPreviousGeneration` and
      `SourceMissing`. */
  method Edit(change: string, sourcePath: Option<string>, model: Option<string>, env: Environment,
              service: ImageService, disk: Disk, store: SessionStore)
    returns (outcome: EditOutcome)
    requires IsBannedOrder(env.bannedOrder)
    modifies service, disk, store
    ensures
      var source := ResolveSource(sourcePath, LoadSession(old(store.file)));
      source.None? ==>
        && outcome == NoPreviousGeneration
        && service.requests == old(service.requests) && disk.images == old(disk.images)
        && store.file == old(store.file)
    ensures
      var source := ResolveSource(sourcePath, LoadSession(old(store.file)));
      source.Some? && source.value !in old(disk.images) ==>
        && outcome == SourceMissing(source.value)
        && service.requests == old(service.requests) && disk.images == old(disk.images)
        && store.file == old(store.file)
    ensures
      var session := LoadSession(old(store.file));
      var source := ResolveSource(sourcePath, session);
      source.Some? && source.value in old(disk.images) ==>
            var k := |old(service.requests)|;
            var attempts := RetryPolicy(ReplyAt(service.script, k), ReplyAt(service.script, k + 1));
            var prompt := BuildEditPrompt(env.bannedOrder, change);
            var path := JoinPath(env.outputDir, BuildEditFilename(source.value, NextEditNumber(session)));
            && service.requests
               == old(service.requests) + RequestsFor(source, Sent(prompt, attempts.count), model)
            && (attempts.image.None? ==> outcome == EditFailed && store.file == old(store.file))
            && (attempts.image.Some? ==>
                  && outcome == Edited(path)
                  && disk.images == old(disk.images)[path := attempts.image.value]
                  && store.file == Stored(AfterEdit(session, path, change, env.now)))
  {
    var source := LoadEditSource(sourcePath, store);
    if source.None? {
      return NoPreviousGeneration;
    }
    if source.value !in disk.images {
      return SourceMissing(source.value);
    }
    outcome := EditExisting(change, source.value, model, env, service, disk, store, LoadSession(store.file));
  }

  /** The source lookup of `_edit`: the given path, else (loading the
      session) the first image of the last generation, if there is one. */
  method LoadEditSource(sourcePath: Option<string>, store: SessionStore) returns (source: Option<string>)
    ensures source == ResolveSource(sourcePath, LoadSession(store.file))
  {
    if sourcePath.None? {
      var state := store.Load();
      if state.lastGenerated == [] {
        return None;
      }
      source := Some(state.lastGenerated[0]);
    } else {
      source := sourcePath;
    }
  }

  /** The edit prompt for `change`, requested under the retry policy with
      the image written to `path`. */
  method RequestEdit(change: string, source: string, model: Option<string>, path: string, env: Environment,
                     service: ImageService, disk: Disk)
    returns (image: Option<Image>, ghost attempts: Attempts)
    requires IsBannedOrder(env.bannedOrder)
    modifies service, disk
    ensures
      var k := |old(service.requests)|;
      attempts == RetryPolicy(ReplyAt(service.script, k), ReplyAt(service.script, k + 1))
    ensures service.requests == old(service.requests)
              + RequestsFor(Some(source), Sent(BuildEditPrompt(env.bannedOrder, change), attempts.count), model)
    ensures image == attempts.image
    ensures image.Some? ==> disk.images == old(disk.images)[path := image.value]
  {
    var prompt := BuildEditPrompt(env.bannedOrder, change);
    image, attempts := RequestValidated(Some(source), prompt, model, path, service, disk);
  }

  /** The rest of `_edit`, once the source image is known to exist: number
      the edit, request it under the retry policy, and record it. */
  method EditExisting(change: string, source: string, model: Option<string>, env: Environment,
                      service: ImageService, disk: Disk, store: SessionStore, ghost session: Session)
    returns (outcome: EditOutcome)
    requires IsBannedOrder(env.bannedOrder)
    requires session == LoadSession(store.file)
    modifies service, disk, store
    ensures
      var k := |old(service.requests)|;
      var attempts := RetryPolicy(ReplyAt(service.script, k), ReplyAt(service.script, k + 1));
      var prompt := BuildEditPrompt(env.bannedOrder, change);
      var path := JoinPath(env.outputDir, BuildEditFilename(source, NextEditNumber(session)));
      && service.requests
         == old(service.requests) + RequestsFor(Some(source), Sent(prompt, attempts.count), model)
      && (attempts.image.None? ==> outcome == EditFailed && store.file == old(store.file))
      && (attempts.image.Some? ==>
            && outcome == Edited(path)
            && disk.images == old(disk.images)[path := attempts.image.value]
            && store.file == Stored(AfterEdit(session, path, change, env.now)))
  {
    var state := store.Load();
    var editNumber := (if state.editCount.Some? then state.editCount.value else 0) + 1;
    var path := JoinPath(env.outputDir, BuildEditFilename(source, editNumber));
    assert editNumber == NextEditNumber(session);
    var image, attempts := RequestEdit(change, source, model, path, env, service, disk);
    if image.None? {
      return EditFailed;
    }
    ghost var written := disk.images;
    assert written == old(disk.images)[path := image.value];
    store.UpdateAfterEdit(path, change, env.now);
    assert disk.images == written;
    outcome := Edited(path);
  }

  /** Every request of an `edit` is free of banned words. */
  lemma EditRequestsClean(order: seq<string>, change: string, count: nat)
    requires IsBannedOrder(order) && 1 <= count <= 2
    ensures
      var sent := Sent(BuildEditPrompt(order, change), count);
      forall k :: 0 <= k < |sent| ==> NoBannedWord(sent[k])
  {
    RetryPromptClean(BuildEditPrompt(order, change));
  }

  /** Editing an edit of a file keeps that file's base name: the output is
      named after the original, with the new edit number. */
  lemma EditOfEditName(env: Environment, sourcePath: string, n: nat, m: int)
    ensures
      var previous := JoinPath(env.outputDir, BuildEditFilename(sourcePath, n));
      BuildEditFilename(previous, m) == BuildEditFilename(sourcePath, m)
  {
    var name := BuildEditFilename(sourcePath, n);
    assert JoinPath(env.outputDir, name) == (env.outputDir + "/") + name;
    ReEditKeepsBase(env.outputDir + "/", sourcePath, n, m);
  }

  // ---------------------------------------------------------------------------
  // set-key
  // ---------------------------------------------------------------------------

  /** The session with `api_key` set and every other field as it was. */
  function WithApiKey(s: Session, key: string): (t: Session)
    ensures t.apiKey == Some(key)
    ensures t.(apiKey := s.apiKey) == s
  {
    s.(apiKey := Some(key))
  }

  /** `_set_key`. */
  method SetKey(key: string, store: SessionStore)
    modifies store
    ensures store.file == Stored(WithApiKey(LoadSession(old(store.file)), key))
  {
    var state := store.Load();
    state := state.(apiKey := Some(key));
    store.Save(state);
  }

  /** A key once set survives every later `generate` and `edit`. */
  lemma KeySurvivesUpdates(s: Session, key: string, us: seq<Update>)
    ensures ApplyAll(WithApiKey(s, key), us).apiKey == Some(key)
  {
    HistoryAppendOnly(WithApiKey(s, key), us);
  }
}
