# doxygen-whiner core, modelled in Dafny

doxygen-whiner reads Doxygen warnings, uses `git blame` to find the author
of each warned-about line, and e-mails authors about warnings they have not
been told about before. This project models the core of that pipeline:

- the runtime type-checked attribute descriptor (`TypeCheckedAttribute` in
  `doxygen_whiner/utils.py`, and its private copy `_TypeCheckedAttribute`
  in `doxygen_whiner/warning.py`);
- the `Warning` record with its three checked attributes `file: str`,
  `line: int` and `text: str`;
- `Person`, `WarningWithCulprit` and `create_warning_with_culprit` in
  `doxygen_whiner/git.py`. This covers the argument list of the one-line
  `git blame` query and the extraction of the author's name and e-mail
  address from its porcelain output;
- the ledger `Database` in `doxygen_whiner/db.py`, over a `warnings` table
  of rows `(file, line, text, name, email)`.

Modules:

- `Wrappers`: the `Option`, `Result` and `Outcome` types. A Python
  exception is modelled as a `Failure` or `Fail` value.
- `Utils`:
  - Python values tagged with their runtime class. In `isinstance`, `bool`
    counts as an `int`.
  - An object, `Instance`, modelled as a class whose field `attrs` is its
    `__dict__`.
  - The descriptor's `__set__` (`Set`, specified by the pure `Assign`) and
    `__get__` (`Get`).
  - A run of checked assignments, `AssignAll`, as an `__init__` performs
    them.
- `Warnings`: `Warning.__init__` as `NewWarning`.
- `Decimal`: Python's `str(int)`, which `'{0},{0}'.format(line)` uses, and
  the reading of such a numeral back into an integer. This reading is the
  partner that gives the blame query's `-L N,N` argument its meaning.
- `Git`: `Person`, person equality, `WarningWithCulprit`, and the blame
  query's arguments. It also covers the multi-line regular-expression
  searches `^author (.*)$` and `^author-mail <(.*)>$`, modelled over the
  output split at newlines, and the driver `CreateWarningWithCulprit`. The
  driver takes the blame output as a parameter.
- `Db`:
  - A `Connection` class stands for the SQLite connection. It holds the
    `warnings` table's rows, or `None` while the table does not exist.
  - A `Database` class wraps it: the constructor runs
    `CREATE TABLE IF NOT EXISTS`, and the class has `InsertWarning`,
    `HasWarning` and `Reset`.
  - The `WHERE` clause of `has_warning` is modelled by `Matches` and
    `Contains`.

Where the repository's tests expect more than the code does, the model
follows the code. Among the things the tests expect that the code does
not do:

- warnings compared without their line numbers, both the `line` column and
  numbers quoted in the text;
- a `make_all_warnings_old` operation;
- a `GitError` wrapper around failures of the blame query, with the working
  directory restored on failure paths;
- a `__repr__` on `Person` and on `WarningWithCulprit`;
- `WarningWithCulprit` objects that compare equal field by field;
- `Person` and `WarningWithCulprit` importable from
  `doxygen_whiner/warning.py`, which defines neither.

None of these exists in the core files, so none is modelled.
`Db.LineNumbersAreCompared` states the comparison the code performs.

## Model

| member | source | states |
|---|---|---|
| Utils.Assign | doxygen_whiner/utils.py:16-20 | The assignment succeeds exactly when the value is an instance of the declared type. On failure the error carries the value and the type. On success the dictionary gains the one key, which holds the value, and every other key keeps its value. |
| Utils.Set | doxygen_whiner/utils.py:16-20 | `__set__` changes the instance dictionary exactly as `Assign` says. A rejected value leaves the dictionary unchanged. After an accepted value, `__get__` returns it. |
| Utils.Get | doxygen_whiner/utils.py:22-26 | Access through the class (no instance) yields the descriptor itself. Access through an instance yields the stored value exactly when the key is present, and a `KeyError` otherwise. |
| Utils.IntAttributeAdmits | doxygen_whiner/utils.py:16-19 | An `int` attribute rejects a float and a string, each with its `TypeError`, and accepts a `bool`. |
| Utils.AssignAll | doxygen_whiner/warning.py:34-37 | A run of checked assignments succeeds exactly when every value is well typed. Otherwise it fails with the `TypeError` of the first ill-typed assignment, and every earlier assignment was well typed. |
| Utils.AssignAllKeys | doxygen_whiner/warning.py:34-37 | After a successful run, the dictionary's keys are the old keys plus the assigned names. Every attribute that is not assigned keeps its old value. |
| Utils.AssignAllLastWrite | doxygen_whiner/warning.py:34-37 | After a successful run, each assigned name is present and holds the value of its last assignment. |
| Warnings.NewWarning | doxygen_whiner/warning.py:29-37 | `Warning(file, line, text)` succeeds exactly when `file` and `text` are strings and `line` is an int. On failure it raises the error of the first ill-typed argument, in the order file, line, text. On success the new object's dictionary holds exactly the three values, and each reads back through its descriptor. |
| Warnings.InitChecksInOrder | doxygen_whiner/warning.py:34-37 | The outcome of the constructor's three checked assignments: the error for the first ill-typed field, whatever the later fields hold, or else exactly the three-entry dictionary. |
| Warnings.ValuesAreNotChecked | doxygen_whiner/warning.py:30-37 | Only types are checked. An empty file name, an empty text and a zero or negative line are accepted. |
| Warnings.FloatLineIsRejected | doxygen_whiner/warning.py:31-36 | A float line number is rejected with the `TypeError` for `line`. |
| Decimal.NatToString | doxygen_whiner/git.py:45 | The decimal rendering of a natural number is a non-empty string of digits. It has a leading `0` only for zero itself. |
| Decimal.IntToString | doxygen_whiner/git.py:45 | `str(n)` is non-empty and holds no comma, so `'{0},{0}'` has exactly one comma. |
| Decimal.ParseNatToString | doxygen_whiner/git.py:45 | Reading back the decimal digits of `n` gives `n`. |
| Decimal.IntToStringRoundTrip | doxygen_whiner/git.py:45 | Reading back `str(n)` gives `n`, for every integer, negative ones included. |
| Git.NewPerson | doxygen_whiner/git.py:18-24 | `Person(name, email)` succeeds exactly when both values are strings. It checks `name` first, then `email`. On success the dictionary holds exactly the two values. |
| Git.PersonEq | doxygen_whiner/git.py:26-27 | `__eq__` holds exactly when both persons' `name` and `email`, as read through the descriptors, are equal. |
| Git.PersonNe | doxygen_whiner/git.py:29-30 | `__ne__` holds exactly when the persons' `name` or their `email`, as read through the descriptors, differ. `Git.PersonEqOfConstructed` states it for persons built from strings. |
| Git.PersonEqOfConstructed | doxygen_whiner/git.py:26-30 | Two persons built from strings are equal exactly when their names and addresses are equal, whether or not they are the same object. `__ne__` is the exact negation. |
| Git.PersonEqIsEquivalence | doxygen_whiner/git.py:26-27 | Person equality is reflexive, symmetric and transitive. |
| Git.NewWarningWithCulprit | doxygen_whiner/git.py:33-36 | The new object is fresh. Its dictionary is the warning's dictionary plus `culprit`, which may hold any value. `file`, `line` and `text` read back as in the warning. A well-typed warning with a well-typed person gives a well-formed warning with culprit. |
| Git.LineRange | doxygen_whiner/git.py:45 | `'{0},{0}'.format(line)` for an `int` line reads back, as two decimal integers around the first comma, as the one-line range `(N, N)`. For a `bool` line the text is `True,True` or `False,False`, which does not read as a range. |
| Git.BlameArgs | doxygen_whiner/git.py:43-46 | The query has six arguments. Its range argument reads as two decimal integers exactly when the warning's line is an `int` rather than a `bool`. `Git.BlameQueriesOneLine` states the whole list. |
| Git.BlameQueriesOneLine | doxygen_whiner/git.py:43-46 | The query is `git blame <file> -L <range> --porcelain`. For an `int` line `N`, the range reads as two decimal integers around its comma, and those integers are `(N, N)`. |
| Git.SplitLines | doxygen_whiner/git.py:49-50 | The lines a multi-line search sees contain no newline, and joining them with newlines gives back the whole output. |
| Git.SplitJoin | doxygen_whiner/git.py:49-50 | Splitting newline-free lines after joining them gives back the same lines. |
| Git.NameOf | doxygen_whiner/git.py:49 | Group 1 of `^author (.*)$` is the text that, after `author `, makes up the whole line. |
| Git.MailOf | doxygen_whiner/git.py:50 | Group 1 of `^author-mail <(.*)>$` is the text that, between `author-mail <` and `>`, makes up the whole line. |
| Git.NameIn | doxygen_whiner/git.py:49-51 | There is no match exactly when no line is an `author ` line. A match is the name from a line that is preceded by no other `author ` line. |
| Git.EmailIn | doxygen_whiner/git.py:50-52 | There is no match exactly when no line has the form `author-mail <...>`. A match is the address from a line that is preceded by no other such line. |
| Git.ExtractName | doxygen_whiner/git.py:49-51 | The same as `NameIn`, stated over the blame output. |
| Git.ExtractEmail | doxygen_whiner/git.py:50-52 | The same as `EmailIn`, stated over the blame output. |
| Git.ExtractAuthor | doxygen_whiner/git.py:49-52 | The author is found exactly when both searches match. The pair is the two groups. The name search is evaluated first, so a missing name is the error even when the address is also missing. |
| Git.OtherAuthorFieldsAreNotNames | doxygen_whiner/git.py:49 | The `author-mail`, `author-time` and `author-tz` lines never match the name pattern. |
| Git.NameFromLines | doxygen_whiner/git.py:49-51 | When line `k` is the first `author ` line of newline-free lines, the name is taken from line `k`. |
| Git.EmailFromLines | doxygen_whiner/git.py:50-52 | When line `k` is the first `author-mail <...>` line of newline-free lines, the address is taken from line `k`. |
| Git.AuthorLineOf | doxygen_whiner/git.py:49-50 | `author <name>` is a name line and not an address line, and it yields `name`. |
| Git.AuthorMailLineOf | doxygen_whiner/git.py:50 | `author-mail <email>` is an address line and yields `email`. |
| Git.PorcelainAuthor | doxygen_whiner/git.py:43-52 | Porcelain output has a commit header, then `author <name>`, then `author-mail <email>`, then any further lines. From such output the extracted author is exactly `(name, email)`. |
| Git.CreateWarningWithCulprit | doxygen_whiner/git.py:47-56 | Succeeds exactly when the author can be extracted, and otherwise fails with the failed search. On success it gives a fresh warning whose dictionary is the old one plus `culprit`, a fresh person holding the extracted name and address. The result is well formed when the warning was. |
| Db.Connection.constructor | tests/test_db.py:22 | `sqlite3.connect(':memory:')` opens a fresh database that has no `warnings` table yet, so `Database(conn)` has one to create. |
| Db.ConvertWarningToTuple | doxygen_whiner/db.py:25-32 | The row holds the warning's `file`, `line` and `text` and the culprit's `name` and `email`, each as read through its attribute. A `bool` line is stored as 0 or 1. `Db.SameRowIff` states when two warnings give the same row. |
| Db.Database.constructor | doxygen_whiner/db.py:10-13 | The database wraps the given connection. Afterwards the table exists, keeping any rows it already had, or empty (finding nothing) when it was missing. |
| Db.Database.InitializeTable | doxygen_whiner/db.py:15-23 | `CREATE TABLE IF NOT EXISTS`: a missing table is created empty, and an existing one is left as it is. |
| Db.Database.InsertWarning | doxygen_whiner/db.py:34-38 | A line outside the signed 64-bit INTEGER range raises `OverflowError`, and the table is left unchanged. Otherwise the call appends exactly the warning's row and changes nothing else. The warning is then found, and every key found before is still found. |
| Db.Database.HasWarning | doxygen_whiner/db.py:40-50 | A line outside the signed 64-bit INTEGER range raises `OverflowError`. Otherwise the result is true exactly when some row matches the warning's five values in all columns. |
| Db.Database.Reset | doxygen_whiner/db.py:53-54 | `DELETE FROM warnings` empties the table, which still exists, and no key is found afterwards. |
| Db.MatchesIsEquality | doxygen_whiner/db.py:42-47 | The `WHERE` clause holds exactly when the row equals the key. No column is ignored or normalised. |
| Db.ContainsAfterAppend | doxygen_whiner/db.py:34-50 | After an insert, a key is found exactly when it was found before or it is the inserted row. |
| Db.LineNumbersAreCompared | doxygen_whiner/db.py:40-50 | A table holding one warning finds a warning exactly when it has the same row. A different line number alone makes it a different warning. |
| Db.SameRowIff | doxygen_whiner/db.py:25-32 | Two warnings have the same row exactly when their file, line (as the integer SQLite stores), text, culprit name and culprit e-mail are equal. |

## Left out

- The SQLite engine is not modelled: persistence, transactions and column affinity. The table is a sequence of typed rows. Of the `sqlite3` module's parameter binding, only the `OverflowError` for an `int` outside the signed 64-bit range is modelled.
- The environment side of `create_warning_with_culprit` is not modelled: `os.getcwd`, `os.chdir`, `subprocess.check_output` and UTF-8 decoding (`doxygen_whiner/git.py:40-47`, `54`). The blame output is a parameter of `CreateWarningWithCulprit`, and `BlameArgs` is the argument list it would be run with. The failures of those calls are not modelled either, and neither is the fact that the working directory is left changed when one of them raises.
- Git.BlameQueriesOneLine: the model reads the `-L` argument as two decimal integers around the first comma. It does not model which ranges the blame tool accepts. A line of 0 or below, which `Warning` accepts, gives a range like `0,0` that the blame tool rejects rather than reading as one line.
- `warning.dir` (`doxygen_whiner/git.py:41`) names an attribute that `Warning` never defines. On a `Warning` built by its constructor this line raises `AttributeError`. The model starts after that step.
- `Db.Database.InsertWarning`, `Db.Database.HasWarning` and `Db.ConvertWarningToTuple` require a well-formed warning with a culprit. The `AttributeError` and `KeyError` that Python raises for a malformed object are not modelled.
- Warnings compare by identity, because `Warning` defines no `__eq__`. Structural equality of warnings is not modelled, and no member relies on it.
- A float is modelled as a real number. Only the fact that it is not an `int` or a `str` matters here.
- `__repr__`, the formatting of the `TypeError` message, and the use of `isinstance` with subclasses of `str` and `int` other than `bool` are not modelled.
- `Git.PersonEq` and `Git.PersonNe` are stated only for well-formed persons. Comparing with an object that lacks `name` or `email` raises in Python, and that case is not modelled.
- `doxygen_whiner/email.py`, `doxygen_whiner/io.py`, `doxygen_whiner/args.py`, `doxygen_whiner/config.py` and the `doxygen-whiner.py` entry point are not part of this model. The parsing of warning lines is not part of this model either: it is not in `doxygen_whiner/warning.py`.
- `warning.py`'s `_TypeCheckedAttribute` is a line-for-line copy of `utils.py`'s `TypeCheckedAttribute`, so both are modelled once, by `Utils.Set` and `Utils.Get`.
