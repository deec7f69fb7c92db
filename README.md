# Segment prompt strategy

A segment prompt strategy is the policy object that a transcription pipeline
asks for prompt text before it runs inference on each audio segment. The
pipeline notifies the strategy again once the segment has finished. The base
class `AbstractPromptStrategy` declares these two operations,
`get_segment_prompt` and `on_segment_finished`, and decorates them with
`@abc.abstractmethod`. The class derives from neither `abc.ABC` nor
`ABCMeta`, so the decorators enforce nothing. The base class can be
instantiated, and a subclass that does not override an operation inherits its
`pass` body. An inherited `get_segment_prompt` returns `None`, and an
inherited `on_segment_finished` does nothing. The other code in the class is
the shared helper `_concat_prompt`, which merges two optional prompts.

This project models that class in the module `PromptStrategy`
(`prompt_strategy.dfy`). The module `Wrappers` (`wrappers.dfy`) supplies
`Option`, which stands for Python's `None`.

- `SegmentResult` / `SubSegment` follow the documented shape of the `result`
  record (src/prompts/abstractPromptStrategy.py:41-53). That record holds the
  overall text, the ordered sub-segments (which may be empty), and the
  language. They carry no contract, only the shape.
- `Strategy<S>` stands for the two operations' signatures
  (src/prompts/abstractPromptStrategy.py:12 and :28). It is a record of two
  functions that receive the strategy's state `S` explicitly.
  `segmentPrompt` reads the state and returns a prompt, but returns no new
  state. `segmentFinished` returns the next state. This matches the fact that
  `on_segment_finished` is the only notification hook. It carries no contract.
- `Inherited` is the `Strategy` that a subclass gets when it overrides
  neither operation (src/prompts/abstractPromptStrategy.py:25 and :55). Its
  prompt is always absent and its state never changes.
- `ConcatPrompt` is `_concat_prompt`. `self` is unused there, so it is a plain
  function.
- Its partner is an independent reference definition, `Merged`. It takes the
  present prompts of a list, in order, separates them with single spaces, and
  is absent when no prompt is present. `ConcatAll` merges a list one prompt at
  a time with `ConcatPrompt`, and it is proved equal to `Merged`.

## Model

| member | source | states |
|---|---|---|
| `PromptStrategy.ConcatPrompt` | src/prompts/abstractPromptStrategy.py:68-73 | The result is absent exactly when both prompts are absent. When both are present, the result has length `|p| + 1 + |q|`, starts with `p`, has a space at index `|p|` and ends with `q`. |
| `PromptStrategy.InheritedIsInert` | src/prompts/abstractPromptStrategy.py:11-55 | A subclass that overrides neither operation gets a strategy whose prompt is absent for every segment and whose state never changes, because both operations have `pass` bodies. |
| `PromptStrategy.AbsentFirstYieldsSecond` | src/prompts/abstractPromptStrategy.py:68-69 | An absent first prompt yields the second prompt unchanged, including when the second is also absent. |
| `PromptStrategy.AbsentSecondYieldsFirst` | src/prompts/abstractPromptStrategy.py:70-71 | A present first prompt with an absent second prompt yields the first prompt unchanged. |
| `PromptStrategy.BothPresentJoinWithSpace` | src/prompts/abstractPromptStrategy.py:72-73 | Two present prompts give exactly `p + " " + q`. |
| `PromptStrategy.EmptyIsNotAbsent` | src/prompts/abstractPromptStrategy.py:68-73 | Only absence selects a fallback, never emptiness. A present empty prompt is still joined with the space: `("", s)` gives `" " + s`, `(s, "")` gives `s + " "`, `("", "")` gives `" "`, and `("", "x")` gives `" x"`. |
| `PromptStrategy.AbsentIsIdentity` | src/prompts/abstractPromptStrategy.py:68-71 | Absence is a left and right identity of the merge. |
| `PromptStrategy.ConcatPromptAssociative` | src/prompts/abstractPromptStrategy.py:68-73 | Merging is associative for all optional `a`, `b`, `c`. |
| `PromptStrategy.ConcatPromptIsMerged` | src/prompts/abstractPromptStrategy.py:68-73 | The helper agrees with the reference definition for two prompts: the present prompts joined by single spaces, or absent when neither is present. |
| `PromptStrategy.ConcatAllIsMerged` | src/prompts/abstractPromptStrategy.py:68-73 | Merging any list of optional prompts one by one, starting from absence, gives the present prompts in order, each pair separated by exactly one space. The result is absent exactly when no prompt is present. |

## Left out

- `get_segment_prompt` and `on_segment_finished` (src/prompts/abstractPromptStrategy.py:11-55) have only `pass` bodies. The model keeps their signatures, as the two fields of `Strategy`, and their inherited behaviour, as `Inherited`. No concrete strategy is part of this model.
- `Strategy` requires both operations to be given, but the source does not: an operation a subclass leaves out falls back to `Inherited`'s component.
- `Strategy.segmentPrompt` returns `Option<string>`, although the source annotates `str`. The inherited `get_segment_prompt` returns `None`, and `_concat_prompt`, which strategies use, returns `None` when both inputs are `None`. Python does not enforce the annotation. For the same reason, `whisper_prompt` and `detected_language` are modelled as `Option<string>`.
- The requirement that strategies be picklable concerns transport between processes. No code for it exists in this file.
- The `start` and `end` timestamps are floating point, and `words` is an untyped list. Both are left out of `SubSegment`.
- The `abc` import and decorators enforce nothing here, because the class is not an `abc.ABC`. Nothing of them is modelled.
- The segment processor imposes no call ordering in this code, so none is modelled.
