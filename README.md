# Beholder plugin core, modelled in Dafny

Beholder is a TensorBoard plugin that streams live frames to the browser. A
training process writes the frames, together with section metadata, into the
plugin's directory. This project models the plugin object
(`tensorboard/plugins/beholder/beholder_plugin.py`) and proves properties of
that model:

- **State**: the live frame rate `FPS`, the most recent frame and the most
  recent section info, kept as last-known-good values. These are the fields of
  class `Beholder.BeholderPlugin`. One more field, `pickled`, maps each path
  the object has written a config to onto that config.
- **Fallback reads**: `FetchCurrentFrame` and `ServeSectionInfo`. Each read of
  a file is an `Option` input, where `None` stands for the exceptions the source
  catches or for `read_pickle` falling back to its default. Over any sequence of
  attempts, the frame is the most recent successful read, or the placeholder
  when none succeeded (`LatestGood` and its two lemmas).
- **Config changes** (module `Coercion`): each form value is coerced. A value
  Python's `int()` accepts becomes that integer, and this is tried first. The
  exact literals `"false"` and `"true"` become booleans. Any other value stays a
  string. The config has exactly the form's keys. `FPS` is taken from it, and
  the same config is persisted and returned. Without an `FPS` entry the
  operation fails with the key, and nothing changes.
- **Frame generator** (module `Framing` and `GeneratorStep`/`Generate`). If
  `FPS == 0` an iteration does nothing. In Python `False == 0`, so `FPS=false`
  pauses as well. If `FPS` is a string, `1/FPS` raises and the stream ends.
  Otherwise the iteration sleeps `max(0, 1/FPS - last_duration)`. It then
  fetches a frame and yields `--frame\r\n`, `Content-Type: image/png\r\n\r\n`,
  the PNG bytes, and `\r\n\r\n`. That is 40 bytes around the image, and
  `Unframe` recovers the image from such a chunk.
- **Liveness, tags and routes**: `is_active` holds exactly when both the summary
  file and the section-info file exist. The tags handler tests the bound method
  `self.is_active` and never calls it. A bound method is always truthy, so the
  answer is always the registration map, even when the plugin is inactive. The
  route table serves each of its six handlers under exactly one path.

Three behaviours of the code look unintended. The model reproduces them as
written:

- The tags handler has an `else` branch answering `{}` (lines 105-106), so an
  empty answer was meant for an inactive plugin. The branch is never taken,
  because line 99 tests the bound method rather than calling it
  (`TagsIgnoreActivity`).
- Line 164 measures `last_duration` so that the sleep at line 153 can make up
  for the time spent encoding. Line 148 resets it to 0 at the top of every
  iteration, before it is read, so the computed sleep is always
  `max(0, 1/FPS)`. It never depends on an earlier iteration (`GeneratorStep`,
  `Generate`).
- `FPS` is used as a number (lines 150 and 153), but line 128 stores whatever
  value the `FPS` entry coerces to, which may be a boolean or a string.

Calling `ChangeConfig` twice with the same form persists the same config both
times: its contract fixes the pickled config as `CoerceForm(items)`, which
depends only on the form.

## Model

| member | source | states |
|---|---|---|
| `Beholder.BeholderPlugin.constructor` | tensorboard/plugins/beholder/beholder_plugin.py:41-49 | FPS starts at 10, the frame at the placeholder image, the info at the single "Waiting for data..." record; nothing pickled yet |
| `Beholder.BeholderPlugin.FetchCurrentFrame` | tensorboard/plugins/beholder/beholder_plugin.py:85-94 | a successful read is returned and becomes the stored frame; a failed read returns the stored frame and leaves it unchanged; no other field changes |
| `Beholder.LatestGood` | tensorboard/plugins/beholder/beholder_plugin.py:85-94 | the frame served after a run of fetch attempts is the starting frame or the value of one of the successful attempts |
| `Beholder.LatestGoodNoSuccess` | tensorboard/plugins/beholder/beholder_plugin.py:46 | over a run of attempts none of which succeeds, the frame served is the starting (placeholder) frame |
| `Beholder.LatestGoodLastSuccess` | tensorboard/plugins/beholder/beholder_plugin.py:88-94 | after failed attempts, the frame served is exactly the value of the most recent successful attempt |
| `Beholder.BeholderPlugin.ServeSectionInfo` | tensorboard/plugins/beholder/beholder_plugin.py:137-142 | the answer is the fresh info if readable, else the stored info; the stored info equals the answer afterwards; nothing else changes |
| `Coercion.ParseInt` | tensorboard/plugins/beholder/beholder_plugin.py:119 | `int(value)` succeeds exactly on an optional sign followed by at least one digit; a negative result comes from a leading '-' |
| `Coercion.ParseIntDigits` | tensorboard/plugins/beholder/beholder_plugin.py:119 | an unsigned digit run is read as its decimal value |
| `Coercion.ParseIntPlus` | tensorboard/plugins/beholder/beholder_plugin.py:119 | a '+' sign leaves the value of a digit run unchanged, as `int("+5") == 5` |
| `Coercion.ParseIntMinus` | tensorboard/plugins/beholder/beholder_plugin.py:119 | a '-' sign negates the value of a digit run |
| `Coercion.ParseIntLeadingZero` | tensorboard/plugins/beholder/beholder_plugin.py:119 | a leading zero leaves the value unchanged, with or without a sign, as `int("-007") == -7` |
| `Coercion.ParseIntDecimal` | tensorboard/plugins/beholder/beholder_plugin.py:119 | every integer's decimal spelling parses back to that integer |
| `Coercion.LeadingZeroIgnored` | tensorboard/plugins/beholder/beholder_plugin.py:119 | a leading zero does not change the parsed value, as `int("007") == 7` |
| `Coercion.Coerce` | tensorboard/plugins/beholder/beholder_plugin.py:118-126 | the result is an integer exactly when the value parses as one (and then that integer); a boolean only for the literal spelling it stands for; otherwise the string itself, which is neither literal |
| `Coercion.CoerceDecimal` | tensorboard/plugins/beholder/beholder_plugin.py:118-119 | integers take precedence: the spelling of any integer coerces to that integer |
| `Coercion.CoerceBooleanLiterals` | tensorboard/plugins/beholder/beholder_plugin.py:120-124 | a value becomes a boolean if and only if it is exactly "true" or "false", to True and False respectively |
| `Coercion.CoerceForm` | tensorboard/plugins/beholder/beholder_plugin.py:115-126 | every entry of the config comes from some pair of the form, holding the coercion of that pair's value |
| `Coercion.CoerceFormKeys` | tensorboard/plugins/beholder/beholder_plugin.py:115-126 | starting from an empty dict, the config's keys are exactly the form's keys: nothing added, nothing dropped |
| `Coercion.CoerceFormValue` | tensorboard/plugins/beholder/beholder_plugin.py:117-126 | for a form with distinct keys, each key maps to the coercion of its own value |
| `Coercion.BuildConfig` | tensorboard/plugins/beholder/beholder_plugin.py:115-126 | the loop that fills the dict in place builds exactly `CoerceForm` of the form's pairs |
| `Beholder.BeholderPlugin.ChangeConfig` | tensorboard/plugins/beholder/beholder_plugin.py:114-133 | succeeds iff the form has an FPS entry; then returns the coerced config, sets FPS to its FPS entry and pickles that same config to the config file's path, replacing what was there; otherwise fails with the missing key and changes nothing; frame and info never change |
| `Framing.Chunk` | tensorboard/plugins/beholder/beholder_plugin.py:159-162 | a chunk is the 36-byte boundary-and-header prefix, the PNG bytes, and the 4-byte trailer: length is the image length plus 40 |
| `Framing.UnframeChunk` | tensorboard/plugins/beholder/beholder_plugin.py:159-162 | a multipart reader recovers the image bytes from every chunk |
| `Framing.ChunkOfUnframe` | tensorboard/plugins/beholder/beholder_plugin.py:159-162 | any part that unframes to an image is exactly that image's chunk, so chunking is injective |
| `Framing.SleepSeconds` | tensorboard/plugins/beholder/beholder_plugin.py:153 | the sleep is never negative and is at least `1/FPS - last_duration` |
| `Framing.SleepAtRate` | tensorboard/plugins/beholder/beholder_plugin.py:148-153 | with `last_duration` reset to 0, a positive rate sleeps exactly one frame period, a negative one not at all, and an FPS of True one second |
| `Beholder.BeholderPlugin.GeneratorStep` | tensorboard/plugins/beholder/beholder_plugin.py:147-165 | with FPS == 0 (or False) nothing is fetched or yielded; a string FPS raises; otherwise the frame fallback is applied and the yielded chunk frames the encoded fallback frame after a sleep of `max(0, 1/FPS)` that ignores earlier iterations |
| `Beholder.BeholderPlugin.Generate` | tensorboard/plugins/beholder/beholder_plugin.py:145-165 | a run of iterations yields, at iteration i, the chunk of the encoded latest good frame among attempts 0..i, or only pauses, or stops at the first TypeError |
| `Beholder.JoinPath` | tensorboard/plugins/beholder/beholder_plugin.py:70-73 | a joined path is the directory, a '/', and the name, in that order |
| `Beholder.JoinPathInjective` | tensorboard/plugins/beholder/beholder_plugin.py:70-73 | in one directory different file names give different paths |
| `Beholder.BeholderPlugin.IsActive` | tensorboard/plugins/beholder/beholder_plugin.py:69-75 | active exactly when both the summary path and the section-info path are among the existing paths |
| `Beholder.BeholderPlugin.IsActiveCombinations` | tensorboard/plugins/beholder/beholder_plugin.py:69-75 | of the four combinations of the summary and section-info files being present, only the one with both is active |
| `Beholder.BeholderPlugin.IsActiveMonotone` | tensorboard/plugins/beholder/beholder_plugin.py:74-75 | more existing files never make an active plugin inactive |
| `Beholder.BeholderPlugin.Registration` | tensorboard/plugins/beholder/beholder_plugin.py:100-104 | the registration map has the single key `plugins/<name>`, mapping "tensors" to the one tag name |
| `Beholder.BeholderPlugin.ServeTags` | tensorboard/plugins/beholder/beholder_plugin.py:98-110 | the answer is the registration map, never empty, whatever files exist |
| `Beholder.BeholderPlugin.TagsIgnoreActivity` | tensorboard/plugins/beholder/beholder_plugin.py:98-110 | the tags answer is the registration map for every set of files, and is non-empty even when the plugin is inactive |
| `Beholder.PluginApps` | tensorboard/plugins/beholder/beholder_plugin.py:58-66 | every route of the table is a path of one segment directly under the plugin's namespace: a leading '/', a non-empty name and no further '/' |
| `Beholder.PluginAppsInverse` | tensorboard/plugins/beholder/beholder_plugin.py:58-66 | the route table maps each of its paths to a handler served under that path alone, and every handler has a path |

## Left out

- HTTP and werkzeug: request decoding, `http_util.Respond`, the streaming `wrappers.Response` and its mimetype, and the constant body of `/ping`. These are foreign framework calls. Handlers are modelled by the values they compute.
- File I/O: `tf.gfile.Exists`, `read_tensor_summary`, `read_pickle` and `write_pickle`. A read is an `Option` input, file existence is a set of existing paths, and each pickle write is an entry of the `pickled` field, keyed by its path. `file_system_tools` is not part of this model.
- `__init__` creating the plugin directory and writing the default config (lines 51-55): file-system side effects. The default config lives in `shared_config`, which is not part of this model. The file names and the plugin and tag names from that module are constructor parameters (`SharedNames`). `pau.PluginDirectory` is not part of this model either, so the plugin directory is a constructor parameter too.
- Protobuf decoding and the `astype(np.uint8)` conversion: the frame is an opaque type parameter. Exceptions other than the three caught types are not modelled.
- `im_util.encode_png` and `get_image_relative_to_script`: the encoder is a function parameter and the placeholder image a constructor parameter.
- Section records are modelled as maps from strings to strings. Only their `name` entry appears in the source.
- `Coercion.ParseInt`: accepts only an optional sign followed by ASCII digits. Python's `int()` also allows surrounding whitespace, underscores between digits and non-ASCII decimal digits. Python 3.11 and later raise ValueError on decimal strings longer than 4300 digits, so the source keeps such a value as a string where the model returns `Int`.
- `Coercion.CoerceFormValue`: the form is the sequence of pairs `request.form.items()` yields. Werkzeug yields one pair per key (the first value of a repeated key), so the per-key value is stated for distinct keys only. The multi-dict itself is not part of this model.
- `Beholder.BeholderPlugin.ChangeConfig`: the escaping KeyError is a `Failure` carrying the key. The resulting HTTP error response is not modelled.
- `Framing.SleepSeconds`: computed on exact reals, not IEEE doubles. `time.sleep` itself is not modelled: the outcome records the sleep it would be given.
- `Beholder.BeholderPlugin.Generate`: the generator is infinite; the model runs it for a given number of iterations. The `time.time()` measurement at lines 155 and 164 is left out, because line 148 overwrites it before it is ever read.
- Concurrency: several streams and handlers share the object without locks. The model is sequential. Within one `Generate` run FPS does not change, but `GeneratorStep` reads FPS afresh on every call, so a `ChangeConfig` between steps takes effect at the next one.
