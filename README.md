# GROBID response helpers, modelled in Dafny

The GROBID connector of `opscidia/connectors` sends a PDF to the GROBID
extraction service and reshapes the parsed JSON it gets back into flat lists:

- `create_authors` turns the header's author records into display names.
  A record whose `full_name` is missing, falsy, or not subscriptable gives `None`.
- `get_value_nested_dict` follows a key path through nested containers.
- `extract_structure` lists the `_id` of every entry of `structure`, in order.
- `extract_sections` builds one `{title, content}` pair per section name,
  using `content[name].title` and `content[name].content`.

This project models those four helpers and proves what they return.

`json.dfy` (module `Json`) models the dynamic values the helpers receive.
`Value` covers dicts, lists, strings, integers, booleans and `None`. It also
models the two Python operations the helpers use on them:

- `Subscript` is `d[k]`. A dict looks up a string key and raises `KeyError`
  when the key is absent; an unhashable key raises `TypeError`. Lists and
  strings take integer or boolean indices, with negative ones counting from
  the end, and raise `IndexError` when out of range. Anything else raises
  `TypeError`.
- `Iterate` is `for e in v`. A list yields its items, a string its
  one-character strings, and a dict its keys. Anything else raises `TypeError`.

A Python exception is an `Err` result. An exception that the source does not
catch propagates through Dafny's `:-`.

`grobid.dfy` (module `Grobid`) holds the four helpers. Each is a method with
the same loop as the source, proved against its contract. `Lookup` is the
reference definition of a key-path walk. `Dig` is plain nested-dict descent.
The lemmas about them state how a walk composes and where it stops.

## Model

| member | source | states |
|---|---|---|
| Json.Subscript | connectors/sources/grobid.py:27 | `d[k]` with a string key succeeds exactly when `d` is a dict holding `k`, and gives that entry. Otherwise it raises `KeyError(k)` on a dict and `TypeError` on anything else. A non-string key on a dict raises `KeyError(k)` when it is hashable (None, an integer, a boolean) and `TypeError` when it is a list or dict. An integer or boolean index into a list or string succeeds exactly when it lies in `[-len, len)`. It then gives the element at that position, counted from the end when negative; for a string this is a one-character string. Out of range it raises `IndexError`. Any other key on a list or string raises `TypeError`. `None`, booleans and numbers cannot be subscripted. |
| Json.Iterate | connectors/sources/grobid.py:13 | Iteration succeeds exactly on lists, strings and dicts. A list yields its items and a string its characters. A dict yields each key once, as a string. Anything else raises `TypeError`. |
| Grobid.CreateAuthors | connectors/sources/grobid.py:11-23 | Gives one entry per input record, in input order. The entry is the record's `full_name` when it is present and truthy under Python's truth test (`Json.Truthy`: None, False, 0, "", [] and {} are false, every other value is true). It is `None` when that name is falsy or missing, or the record is not a dict. A record never makes the call fail; only a non-iterable input raises `TypeError`. A string or dict input gives one `None` per character or key. Every entry is `None` or truthy. |
| Grobid.GetValueNestedDict | connectors/sources/grobid.py:25-28 | Returns exactly the reference walk `Lookup(d, key)`: the input itself for an empty path, otherwise the subscripts applied left to right. The first error raised is the result. |
| Grobid.LookupAppend | connectors/sources/grobid.py:26-27 | A walk along `p + q` is a walk along `p` followed by a walk along `q` from where `p` ended. A failure on `p` is the failure of the whole walk. |
| Grobid.LookupStopsAtFirstFailure | connectors/sources/grobid.py:27 | Suppose the first `i` keys lead to `v` and `v[path[i]]` raises. Then the whole lookup raises that same error, whatever keys follow. |
| Grobid.LookupStringPath | connectors/sources/grobid.py:25-28 | On a path of string keys, the walk equals nested dict descent (`Dig`). It has the same result, and raises `KeyError` for the first absent key or `TypeError` at the first level that is not a dict. |
| Grobid.ExtractStructure | connectors/sources/grobid.py:30-34 | Without a `structure` key the call raises `KeyError` on a dict and `TypeError` otherwise. When `structure` is a list, the call succeeds exactly when every entry is a dict with `_id`. It then returns those `_id`s with the same length and order. Otherwise it raises the error of the first entry lacking `_id`. An empty string or empty dict gives `[]`. A non-empty one raises `TypeError`, and so does a non-iterable `structure`. |
| Grobid.SectionField | connectors/sources/grobid.py:39-42 | For a string name, the lookup of `("content", name, field)` succeeds exactly when `d['content'][name]` is a dict chain holding `field`. It then gives `d['content'][name][field]`. |
| Grobid.ExtractSections | connectors/sources/grobid.py:36-45 | The call succeeds exactly when both the title and the content lookups succeed for every name. It then gives one section per name, in the order of `names`. Entry `i` holds the `title` and `content` looked up for `names[i]`. Otherwise it raises the error of the first name that fails, with the title lookup checked before the content lookup. |

## Left out

- `pdf_parser` (connectors/sources/grobid.py:48-85) is left out. It is network plumbing: an HTTP POST with a timeout and a status check. It has a catch-all handler that prints the error and returns the document as updated so far.
- The configuration constants at connectors/sources/grobid.py:5-8 are left out. They are the endpoint and token from the environment, and the file size limit.
- connectors/sources/grobid_services.py is not part of this model. It holds only schema and dataclass declarations, with no behaviour.
- JSON numbers with a fractional part are not modelled, because `Value` has integers only.
- Json.Iterate: Python yields a dict's keys in insertion order, and a map has no order, so the contract says only that each key appears once. No helper can observe the order: each dict key is a string, and subscripting a string with a string key always raises `TypeError`.
- Grobid.ExtractSections: `names` is a list here, as its only caller passes the list from `extract_structure`. Other iterables (a string, a dict) are not modelled.
- Grobid.GetValueNestedDict: the key path is a sequence, as every caller passes a tuple. A string path (iterating its characters) is not modelled.
- Exceptions that do not come from subscripting or iteration, such as running out of memory, are not modelled.
